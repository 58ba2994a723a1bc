/**
 The platform's orientation enumerations that the camera view converts
 between: the status-bar (interface) orientation, the capture connection's
 video orientation, UIImage orientation and the image-property orientation,
 whose raw values are those of the Exif "Orientation" tag (1 to 8).
 */
module Orientation {
  import opened Imaging

  datatype InterfaceOrientation = Unknown | Portrait | PortraitUpsideDown | LandscapeLeft | LandscapeRight

  datatype VideoOrientation = VideoPortrait | VideoPortraitUpsideDown | VideoLandscapeLeft | VideoLandscapeRight

  datatype ImageOrientation = Up | Down | Left | Right | UpMirrored | DownMirrored | LeftMirrored | RightMirrored

  datatype PropertyOrientation =
    | PropUp | PropUpMirrored | PropDown | PropDownMirrored
    | PropLeftMirrored | PropRight | PropRightMirrored | PropLeft

  predicate IsMirrored(o: ImageOrientation) {
    o.UpMirrored? || o.DownMirrored? || o.LeftMirrored? || o.RightMirrored?
  }

  predicate IsPropertyMirrored(p: PropertyOrientation) {
    p.PropUpMirrored? || p.PropDownMirrored? || p.PropLeftMirrored? || p.PropRightMirrored?
  }

  /** The Exif orientation value of a property orientation (its raw value). */
  function RawValue(p: PropertyOrientation): (raw: int)
    ensures 1 <= raw <= 8
    ensures IsPropertyMirrored(p) <==> raw in {2, 4, 5, 7}
  {
    match p
    case PropUp => 1
    case PropUpMirrored => 2
    case PropDown => 3
    case PropDownMirrored => 4
    case PropLeftMirrored => 5
    case PropRight => 6
    case PropRightMirrored => 7
    case PropLeft => 8
  }

  /** The property orientation with a given Exif value, if there is one. */
  function FromRawValue(raw: int): (p: Option<PropertyOrientation>)
    ensures p.Some? <==> 1 <= raw <= 8
  {
    if raw == 1 then Some(PropUp)
    else if raw == 2 then Some(PropUpMirrored)
    else if raw == 3 then Some(PropDown)
    else if raw == 4 then Some(PropDownMirrored)
    else if raw == 5 then Some(PropLeftMirrored)
    else if raw == 6 then Some(PropRight)
    else if raw == 7 then Some(PropRightMirrored)
    else if raw == 8 then Some(PropLeft)
    else None
  }

  /** Decoding an encoded orientation gives it back, so RawValue is injective. */
  lemma RawValueRoundTrip(p: PropertyOrientation)
    ensures FromRawValue(RawValue(p)) == Some(p)
  {
  }

  /** Encoding a decoded Exif value gives it back. */
  lemma FromRawValueRoundTrip(raw: int)
    requires 1 <= raw <= 8
    ensures FromRawValue(raw).Some? && RawValue(FromRawValue(raw).value) == raw
  {
  }
}
