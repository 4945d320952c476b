/** The wearable app's state holder: the latest full code and the three
    segments the watch face displays. */
module WearAppState {
  import opened LocationCode

  class OlcAppState {
    var fullLocationCode: Option<string>
    var regionPart: string
    var areaPart: string
    var plusPart: string

    /** The record the fields hold. */
    function Code(): CodeState
      reads this
    {
      CodeState(fullLocationCode, Parts(regionPart, areaPart, plusPart))
    }

    ghost predicate Valid()
      reads this
    {
      Consistent(Code())
    }

    /** No code yet; the segments show the placeholders. */
    constructor ()
      ensures Valid() && Code() == INITIAL
      ensures fullLocationCode == None
      ensures regionPart == "XXXX" && areaPart == "YYYY" && plusPart == "+ZZ"
    {
      fullLocationCode := None;
      regionPart, areaPart, plusPart := "XXXX", "YYYY", "+ZZ";
    }

    /** The custom setter of `fullLocationCode`: null is ignored, a code is
        stored and sliced into the three segments. */
    method SetFullLocationCode(value: Option<string>)
      requires Valid() && Assignable(value)
      modifies this
      ensures Valid()
      ensures Code() == Assign(old(Code()), value)
      ensures value.None? ==> unchanged(this)
      ensures value.Some? ==> fullLocationCode == value
      ensures value.Some? ==> regionPart + areaPart + plusPart == value.value[..11]
      ensures old(fullLocationCode).Some? ==> fullLocationCode.Some?
    {
      if value == None {
        return;
      }
      fullLocationCode := value;
      regionPart := value.value[0..4];
      areaPart := value.value[4..8];
      plusPart := value.value[8..11];
    }
  }
}
