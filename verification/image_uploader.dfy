/** The gallery of src/components/admin/products/ProductImageUploader.tsx:
    two linked state fields, the image URLs and the main image, updated
    together by upload, removal and "set as main". Object URLs created for
    the chosen files arrive as given strings. */
module ImageUploader {
  import opened Base
  import Seqs

  /** The two state fields as one value. */
  datatype Gallery = Gallery(images: seq<string>, main: Option<string>)

  /** `!mainImage`: null and the empty string are falsy. */
  predicate NoMain(main: Option<string>) {
    main.None? || main.value == ""
  }

  /** The invariant the component keeps: the main image is null or one of
      the gallery's images. */
  predicate MainInGallery(g: Gallery) {
    g.main.None? || g.main.value in g.images
  }

  /** `handleImageUpload`: no file list leaves everything as it is; otherwise
      the new URLs go after the existing ones, in selection order, and the
      first of them becomes main when there was no main image. */
  function Upload(g: Gallery, files: Option<seq<string>>): (r: Gallery)
    ensures files.None? ==> r == g
    ensures files.Some? ==>
              |r.images| == |g.images| + |files.value|
              && r.images[..|g.images|] == g.images && r.images[|g.images|..] == files.value
    ensures files.Some? && NoMain(g.main) && |files.value| > 0 ==> r.main == Some(files.value[0])
    ensures !(files.Some? && NoMain(g.main) && |files.value| > 0) ==> r.main == g.main
    ensures MainInGallery(g) ==> MainInGallery(r)
  {
    match files
    case None => g
    case Some(newImages) =>
      var images := g.images + newImages;
      var main := if NoMain(g.main) && |newImages| > 0 then Some(newImages[0]) else g.main;
      assert main.Some? && main != g.main ==> main.value == images[|g.images|];
      Gallery(images, main)
  }

  /** `removeImage(imageUrl)`: every copy of the URL leaves the gallery, the
      rest keep their order; when it was the main image, main moves to the
      first remaining image, or to null when none remains. */
  function Remove(g: Gallery, imageUrl: string): (r: Gallery)
    ensures imageUrl !in r.images
    ensures forall url :: url != imageUrl ==> multiset(r.images)[url] == multiset(g.images)[url]
    ensures g.main != Some(imageUrl) ==> r.main == g.main
    ensures g.main == Some(imageUrl) ==> (r.main.None? <==> |r.images| == 0)
    ensures g.main == Some(imageUrl) && r.main.Some? ==> r.main.value == r.images[0]
    ensures MainInGallery(g) ==> MainInGallery(r)
  {
    var images := Seqs.RemoveAll(g.images, imageUrl);
    var main :=
      if g.main == Some(imageUrl) then
        var remainingImages := Seqs.RemoveAll(g.images, imageUrl);
        if |remainingImages| > 0 then Some(remainingImages[0]) else None
      else g.main;
    assert main.Some? && main != g.main ==> main.value == images[0];
    Gallery(images, main)
  }

  /** `setAsMainImage(imageUrl)`: offered only on an image of the gallery; the
      gallery itself is untouched. */
  function SetMain(g: Gallery, imageUrl: string): (r: Gallery)
    requires imageUrl in g.images
    ensures r.images == g.images && r.main == Some(imageUrl)
    ensures MainInGallery(r)
  {
    g.(main := Some(imageUrl))
  }

  /** Removing an image that is not in the gallery changes nothing. */
  lemma RemoveAbsent(g: Gallery, imageUrl: string)
    requires imageUrl !in g.images && MainInGallery(g)
    ensures Remove(g, imageUrl) == g
  {
    Seqs.RemoveAbsent(g.images, imageUrl);
  }

  /** Removal keeps the surviving images in their order: removing from a
      split gallery removes from each part; and when the removed main image
      fills the front, main passes to the first image after it. */
  lemma RemoveKeepsOrder(front: seq<string>, back: seq<string>, main: Option<string>, imageUrl: string)
    ensures Remove(Gallery(front + back, main), imageUrl).images
            == Remove(Gallery(front, main), imageUrl).images + Remove(Gallery(back, main), imageUrl).images
    ensures main == Some(imageUrl) && (forall i :: 0 <= i < |front| ==> front[i] == imageUrl)
            && |back| > 0 && back[0] != imageUrl
            ==> Remove(Gallery(front + back, main), imageUrl).main == Some(back[0])
  {
    Seqs.RemoveConcat(front, back, imageUrl);
    if main == Some(imageUrl) && (forall i :: 0 <= i < |front| ==> front[i] == imageUrl)
       && |back| > 0 && back[0] != imageUrl
    {
      Seqs.RemoveAllCopies(front, imageUrl);
      assert back == [back[0]] + back[1..];
      Seqs.RemoveConcat([back[0]], back[1..], imageUrl);
      Seqs.RemoveAbsent([back[0]], imageUrl);
    }
  }

  /** Uploading into an empty gallery and then removing the first new image
      makes the second one main. */
  lemma UploadThenRemoveFirst(a: string, b: string)
    requires a != b
    ensures Remove(Upload(Gallery([], None), Some([a, b])), a) == Gallery([b], Some(b))
  {
    assert Upload(Gallery([], None), Some([a, b])) == Gallery([a, b], Some(a));
    assert Seqs.RemoveAll([a, b], a) == [b] by {
      assert [a, b] == [a] + [b];
      Seqs.RemoveConcat([a], [b], a);
      Seqs.RemoveAbsent([b], a);
    }
  }

  /** The component's state. */
  class ImageUploaderState {
    var productImages: seq<string>
    var mainImage: Option<string>

    ghost predicate Valid()
      reads this
    {
      MainInGallery(Gallery(productImages, mainImage))
    }

    /** The dialog's initial state: no images, no main image. */
    constructor ()
      ensures Valid()
      ensures productImages == [] && mainImage == None
    {
      productImages := [];
      mainImage := None;
    }

    method HandleImageUpload(files: Option<seq<string>>)
      requires Valid()
      modifies this
      ensures Valid()
      ensures Gallery(productImages, mainImage) == Upload(old(Gallery(productImages, mainImage)), files)
    {
      if files.None? {
        return;
      }
      var newImages := files.value;
      var before := mainImage;
      productImages := productImages + newImages;
      if NoMain(before) && |newImages| > 0 {
        mainImage := Some(newImages[0]);
      }
    }

    method RemoveImage(imageUrl: string)
      requires Valid()
      modifies this
      ensures Valid()
      ensures Gallery(productImages, mainImage) == Remove(old(Gallery(productImages, mainImage)), imageUrl)
    {
      var remainingImages := Seqs.RemoveAll(productImages, imageUrl);
      productImages := remainingImages;
      if mainImage == Some(imageUrl) {
        mainImage := if |remainingImages| > 0 then Some(remainingImages[0]) else None;
      }
    }

    method SetAsMainImage(imageUrl: string)
      requires Valid() && imageUrl in productImages
      modifies this
      ensures Valid()
      ensures Gallery(productImages, mainImage) == SetMain(old(Gallery(productImages, mainImage)), imageUrl)
    {
      mainImage := Some(imageUrl);
    }
  }
}
