/**
 * The admin banners table: promotional banners whose "active" switch can be flipped per row,
 * and the initial state of the form for a new banner.
 */
module AdminBanners {
  import opened Wrappers
  import Seqs

  datatype Banner = Banner(id: string, name: string, description: string, media: string, isActive: bool)

  /** A media file chosen in the form (a browser `File`). */
  datatype MediaFile = MediaFile(fileName: string)

  datatype BannerForm = BannerForm(name: string, description: string, media: Option<MediaFile>, isActive: bool)

  /** The add-form state the page starts with. */
  const InitialForm := BannerForm("", "", None, true)

  function Flipped(b: Banner): Banner {
    b.(isActive := !b.isActive)
  }

  /** Selects the rows whose id is `id`. */
  function HasId(id: string): Banner -> bool {
    (b: Banner) => b.id == id
  }

  /** The list after toggling the banner(s) with id `id`: each such row has its flag inverted,
      every field of every row is otherwise as it was, and rows keep their places. */
  function Toggled(banners: seq<Banner>, id: string): (r: seq<Banner>)
    ensures |r| == |banners|
    ensures forall i :: 0 <= i < |r| ==>
      && r[i].id == banners[i].id
      && r[i].name == banners[i].name
      && r[i].description == banners[i].description
      && r[i].media == banners[i].media
      && r[i].isActive == (banners[i].isActive != (banners[i].id == id))
  {
    Seqs.MapWhere(banners, HasId(id), Flipped)
  }

  /** Toggling the same id twice gives back the original list. */
  lemma ToggleTwice(banners: seq<Banner>, id: string)
    ensures Toggled(Toggled(banners, id), id) == banners
  {
    Seqs.MapWhereTwice(banners, HasId(id), Flipped);
  }

  /** Toggling an id that no banner carries changes nothing. */
  lemma ToggleAbsent(banners: seq<Banner>, id: string)
    requires forall i :: 0 <= i < |banners| ==> banners[i].id != id
    ensures Toggled(banners, id) == banners
  {
    Seqs.MapWhereMissesAll(banners, HasId(id), Flipped);
  }

  /** The state of the banners page. */
  class AdminBannersPage {
    var banners: seq<Banner>
    var showAddModal: bool
    var formData: BannerForm

    /** The page as it mounts: the given list, the add dialog closed, and the add form
        with empty texts, no media and the banner marked active. */
    constructor (initial: seq<Banner>)
      ensures banners == initial && !showAddModal
      ensures formData.name == "" && formData.description == ""
      ensures formData.media == None && formData.isActive
    {
      banners := initial;
      showAddModal := false;
      formData := InitialForm;
    }

    method OpenAddModal()
      modifies this`showAddModal
      ensures showAddModal && banners == old(banners) && formData == old(formData)
    {
      showAddModal := true;
    }

    /** `toggleStatus`: flips the activity of the row(s) with id `id`, and only that. */
    method ToggleStatus(id: string)
      modifies this`banners
      ensures banners == Toggled(old(banners), id)
      ensures showAddModal == old(showAddModal) && formData == old(formData)
    {
      banners := Toggled(banners, id);
    }
  }
}
