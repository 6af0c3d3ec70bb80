/** Images of one channel. */
module Images {

  /** Rows of pixels. */
  type Image = seq<seq<real>>

  ghost predicate Rectangle(img: Image, width: nat) {
    forall i | 0 <= i < |img| :: |img[i]| == width
  }
}
