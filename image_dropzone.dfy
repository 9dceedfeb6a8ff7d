/** The image dropzone's preview of an already stored product image. */
module ImageDropzone {
  import opened Http
  import opened Text
  import Products

  const UploadsPrefix: string := "/uploads/"

  predicate Served(path: string) {
    StartsWith(path, "http") || StartsWith(path, UploadsPrefix)
  }

  /** A stored image path as a preview URL: full URLs and `/uploads/` paths
      are kept, anything else is taken as a file name in `/uploads/`. */
  function NormalizePreview(existingImage: string): (r: string)
    ensures Served(r)
    ensures Served(existingImage) ==> r == existingImage
    ensures !Served(existingImage) ==> r == UploadsPrefix + existingImage
  {
    if Served(existingImage) then existingImage
    else
      assert (UploadsPrefix + existingImage)[..|UploadsPrefix|] == UploadsPrefix;
      UploadsPrefix + existingImage
  }

  /** The effect run when `existingImage` changes: an empty (falsy) value
      leaves the current preview alone. */
  function NextPreview(preview: Option<string>, existingImage: string): (r: Option<string>)
    ensures existingImage == "" ==> r == preview
    ensures existingImage != "" ==> r == Some(NormalizePreview(existingImage))
  {
    if existingImage == "" then preview else Some(NormalizePreview(existingImage))
  }

  /** Normalising twice is normalising once. */
  lemma NormalizeIdempotent(existingImage: string)
    ensures NormalizePreview(NormalizePreview(existingImage)) == NormalizePreview(existingImage)
  {
  }

  /** A path the server saved for an upload is previewed as it is. */
  lemma SavedImageShownAsIs(file: Products.UploadedFile, now: nat)
    ensures var path := Products.OptimizeAndSaveImage(Some(file), now).value;
      NormalizePreview(path) == path
  {
  }
}
