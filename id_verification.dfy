/**
 * The third wizard step: a photo of the subject and a photo of their ID.
 * Both are required, the subject's first; on success both photo references
 * are added to the parameters gathered so far.
 */
module IdVerification {
  import opened Wrappers
  import opened Ui

  const NextPath := "./test-scan"

  /** `{ ...previousData, subjectPhoto, idPhoto }`. */
  function Merged(prev: Params, subjectPhoto: string, idPhoto: string): (m: Params)
    ensures m.Keys == prev.Keys + {"subjectPhoto", "idPhoto"}
    ensures forall k :: k in prev && k != "subjectPhoto" && k != "idPhoto" ==> m[k] == prev[k]
    ensures m["subjectPhoto"] == subjectPhoto && m["idPhoto"] == idPhoto
  {
    prev + map["subjectPhoto" := subjectPhoto, "idPhoto" := idPhoto]
  }

  /** `handleNext`. */
  function Next(prev: Params, subjectPhoto: Option<string>, idPhoto: Option<string>): (o: Outcome)
    ensures !Present(subjectPhoto) ==> o == Alert("Photo Required", "Please take a photo of the subject")
    ensures Present(subjectPhoto) && !Present(idPhoto) ==> o == Alert("Photo Required", "Please take a photo of the ID")
    ensures o.Navigate? <==> Present(subjectPhoto) && Present(idPhoto)
    ensures o.Navigate? ==> o == Navigate(NextPath, Merged(prev, subjectPhoto.value, idPhoto.value))
  {
    if !Present(subjectPhoto) then Alert("Photo Required", "Please take a photo of the subject")
    else if !Present(idPhoto) then Alert("Photo Required", "Please take a photo of the ID")
    else Navigate(NextPath, Merged(prev, subjectPhoto.value, idPhoto.value))
  }

  /** The state of the ID-verification screen, opened with the route parameters `previous`. */
  class IdVerificationScreen {
    const previous: Params
    var subjectPhoto: Option<string>
    var idPhoto: Option<string>

    constructor(previous: Params)
      ensures this.previous == previous
      ensures subjectPhoto == None && idPhoto == None
    {
      this.previous := previous;
      subjectPhoto := None;
      idPhoto := None;
    }

    /** The subject photo's camera capture (a first capture or a retake): only a photo actually taken replaces the current one. */
    method CaptureSubjectPhoto(shot: CameraResult)
      modifies this
      ensures idPhoto == old(idPhoto)
      ensures shot.Captured? ==> subjectPhoto == Some(shot.uri)
      ensures !shot.Captured? ==> subjectPhoto == old(subjectPhoto)
    {
      if shot.Captured? {
        subjectPhoto := Some(shot.uri);
      }
    }

    /** The ID photo's camera capture (a first capture or a retake): only a photo actually taken replaces the current one. */
    method CaptureIdPhoto(shot: CameraResult)
      modifies this
      ensures subjectPhoto == old(subjectPhoto)
      ensures shot.Captured? ==> idPhoto == Some(shot.uri)
      ensures !shot.Captured? ==> idPhoto == old(idPhoto)
    {
      if shot.Captured? {
        idPhoto := Some(shot.uri);
      }
    }

    /** `disabled={!subjectPhoto || !idPhoto}` on the Next button: disabled exactly when `handleNext` would refuse. */
    function NextDisabled(): (d: bool)
      reads this
      ensures d <==> Next(previous, subjectPhoto, idPhoto).Alert?
    {
      !Present(subjectPhoto) || !Present(idPhoto)
    }
  }
}
