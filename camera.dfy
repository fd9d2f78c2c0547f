/** What a photo-capture loop sees on each turn: a frame that could not be read, or a frame shown
    together with the key read by `cv2.waitKey(1) & 0xFF` and what the detector reports for it. */
module Camera {
  import opened Imaging

  /** The key compared against `ord('s')` and `ord('q')`; any other key, or none, is `OtherKey`. */
  datatype Key = PressS | PressQ | OtherKey

  datatype CaptureEvent =
    | ReadFailed
      /** `faces`: the detector's boxes on the frame, as the revision's own detector call returns
          them; `cropGray`: the grey levels of the largest face's crop; `cropFaces`: how many faces
          the quality check's detector finds in that crop; `token`: the fresh random suffix that
          names the photo. The last three are only read by revisions that use them. */
    | Shown(frame: Image, key: Key, faces: seq<Box>, cropGray: seq<int>, cropFaces: nat, token: string)
}
