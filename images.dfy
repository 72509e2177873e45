/** The image store of images.py: references to image files kept in a temporary
    directory, looked up or created by id. The temporary directory's name and
    `os.path.join` are parameters of the store. */
module Images {
  import opened Base

  /** `ImageRef(id, path)`: the url the dashboard serves it under is `images/<id>`. */
  datatype ImageRef = ImageRef(id: string, path: string, url: string)

  function NewImageRef(id: string, path: string): (r: ImageRef)
    ensures r.id == id && r.path == path
    ensures r.url == "images/" + id
  {
    ImageRef(id, path, "images/" + id)
  }

  /** The url names the image: two refs with the same url have the same id. */
  lemma UrlNamesImage(a: ImageRef, b: ImageRef)
    requires a.url == "images/" + a.id && b.url == "images/" + b.id
    requires a.url == b.url
    ensures a.id == b.id
  {
    assert a.id == a.url[7..];
    assert b.id == b.url[7..];
  }

  /** The ref `make_image_ref` builds for an id. */
  function RefFor(dir: string, join: (string, string) -> string, id: string): ImageRef {
    NewImageRef(id, join(dir, id))
  }

  /** `get_image_ref` as a function of the table: the stored ref, or a new one,
      stored. */
  function GetOrInsert(images: map<string, ImageRef>, dir: string, join: (string, string) -> string,
                       id: string): (r: (ImageRef, map<string, ImageRef>))
    ensures id in r.1 && r.1[id] == r.0
    ensures id in images ==> r.0 == images[id] && r.1 == images
    ensures id !in images ==> r.0 == RefFor(dir, join, id) && r.1 == images[id := r.0]
  {
    if id in images then (images[id], images)
    else
      var ref := RefFor(dir, join, id);
      (ref, images[id := ref])
  }

  /** Asking twice gives the same ref as asking once, and leaves the table as
      asking once does. */
  lemma GetOrInsertIdempotent(images: map<string, ImageRef>, dir: string, join: (string, string) -> string,
                              id: string)
    ensures var first := GetOrInsert(images, dir, join, id);
            GetOrInsert(first.1, dir, join, id) == first
  {
  }

  /** Asking for one id leaves every other id's entry as it was. */
  lemma GetOrInsertLocal(images: map<string, ImageRef>, dir: string, join: (string, string) -> string,
                         id: string, other: string)
    requires other != id
    ensures var after := GetOrInsert(images, dir, join, id).1;
            (other in after <==> other in images) && (other in images ==> after[other] == images[other])
  {
  }

  /** Every stored ref is filed under its own id and has its url. */
  predicate WellFiled(images: map<string, ImageRef>) {
    forall id :: id in images ==> images[id].id == id && images[id].url == "images/" + id
  }

  lemma GetOrInsertKeepsWellFiled(images: map<string, ImageRef>, dir: string, join: (string, string) -> string,
                                  id: string)
    requires WellFiled(images)
    ensures WellFiled(GetOrInsert(images, dir, join, id).1)
  {
  }

  /** `ImageRepo(settings)`. */
  class ImageRepo {
    const settings: Settings
    const dir: string
    const join: (string, string) -> string
    var images: map<string, ImageRef>

    constructor (settings: Settings, dir: string, join: (string, string) -> string)
      ensures this.settings == settings && this.dir == dir && this.join == join
      ensures images == map[]
    {
      this.settings := settings;
      this.dir := dir;
      this.join := join;
      images := map[];
    }

    /** `make_image_ref`: a new ref, stored under its id, replacing any older one. */
    method MakeImageRef(id: string) returns (ref: ImageRef)
      modifies this
      ensures ref == RefFor(dir, join, id)
      ensures images == old(images)[id := ref]
    {
      var path := join(dir, id);
      ref := NewImageRef(id, path);
      images := images[id := ref];
    }

    /** `get_image_ref`: get or create. */
    method GetImageRef(id: string) returns (ref: ImageRef)
      modifies this
      ensures (ref, images) == GetOrInsert(old(images), dir, join, id)
    {
      var image := if id in images then Some(images[id]) else None;
      if image.None? {
        ref := MakeImageRef(id);
      } else {
        ref := image.value;
      }
    }
  }
}
