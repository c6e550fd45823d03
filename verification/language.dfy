/** The three interface languages of the site. */
module Language {

  datatype Lang = Uz | Ru | En
}
