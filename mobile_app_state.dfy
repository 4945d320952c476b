/** The phone app's state holder: the location code and its segments, the
    two location flags, and the views it writes the segments into. */
module MobileAppState {
  import opened LocationCode

  /** One location fix, as delivered by the location client. */
  datatype Location = Location(latitude: real, longitude: real)

  /** The external `OpenLocationCode.encode(latitude, longitude)`. Its
      algorithm belongs to a third-party library; the model only relies on
      its result being a code of at least 11 characters. */
  type Encoder = (real, real) -> Code

  /** What the views display, apart from the refresh spinner. */
  datatype Labels = Labels(region: string, area: string, plus: string, lastUpdated: string, approxVisible: bool)

  /** The text views, the "approximate location" label and the
      swipe-to-refresh layout. The activity and the state holder hold the
      same objects. */
  class Views {
    var regionText: string
    var areaText: string
    var plusText: string
    var lastUpdatedText: string
    var approxVisible: bool
    var refreshing: bool

    function Shown(): Labels
      reads this
    {
      Labels(regionText, areaText, plusText, lastUpdatedText, approxVisible)
    }

    /** The views as the layout inflates them; the spinner starts off. */
    constructor (layout: Labels)
      ensures Shown() == layout && !refreshing
    {
      regionText, areaText, plusText := layout.region, layout.area, layout.plus;
      lastUpdatedText, approxVisible := layout.lastUpdated, layout.approxVisible;
      refreshing := false;
    }
  }

  class OlcAppState {
    var isLocationPrecise: bool
    var locationUpdatesRunning: bool

    var fullLocationCode: Option<string>
    var regionPart: string
    var areaPart: string
    var plusPart: string

    const views: Views
    const encode: Encoder

    function Code(): CodeState
      reads this
    {
      CodeState(fullLocationCode, Parts(regionPart, areaPart, plusPart))
    }

    ghost predicate Valid()
      reads this
    {
      Consistent(Code())
    }

    /** A fresh holder: no code, placeholder segments, both flags off. */
    constructor (views: Views, encode: Encoder)
      ensures Valid() && Code() == INITIAL
      ensures !isLocationPrecise && !locationUpdatesRunning
      ensures this.views == views && this.encode == encode
    {
      isLocationPrecise, locationUpdatesRunning := false, false;
      fullLocationCode := None;
      regionPart, areaPart, plusPart := "XXXX", "YYYY", "+ZZ";
      this.views, this.encode := views, encode;
    }

    /** The custom setter of `fullLocationCode`: null is ignored, a code is
        stored and sliced into the three segments; the flags are untouched. */
    method SetFullLocationCode(value: Option<string>)
      requires Valid() && Assignable(value)
      modifies this
      ensures Valid()
      ensures Code() == Assign(old(Code()), value)
      ensures value.None? ==> unchanged(this)
      ensures value.Some? ==> fullLocationCode == value
      ensures value.Some? ==> regionPart + areaPart + plusPart == value.value[..11]
      ensures isLocationPrecise == old(isLocationPrecise)
      ensures locationUpdatesRunning == old(locationUpdatesRunning)
    {
      if value == None {
        return;
      }
      fullLocationCode := value;
      regionPart := value.value[0..4];
      areaPart := value.value[4..8];
      plusPart := value.value[8..11];
    }

    /** Shows the segments and the precision label, writes the "last
        updated" text and stops the spinner. The message is the formatted
        wall-clock time, supplied by the caller. */
    method UpdateViews(lastUpdatedMessage: string)
      modifies views
      ensures views.Shown() == Labels(regionPart, areaPart, plusPart, lastUpdatedMessage, !isLocationPrecise)
      ensures views.approxVisible <==> !isLocationPrecise
      ensures !views.refreshing
      ensures unchanged(this)
    {
      views.approxVisible := if isLocationPrecise then false else true;
      views.regionText := regionPart;
      views.areaText := areaPart;
      views.plusText := plusPart;
      views.lastUpdatedText := lastUpdatedMessage;
      views.refreshing := false;
    }

    /** Stores a new code and refreshes the views. */
    method UpdateAll(olc: string, lastUpdatedMessage: string)
      requires Valid() && |olc| >= 11
      modifies this, views
      ensures Valid()
      ensures Code() == Assign(old(Code()), Some(olc))
      ensures fullLocationCode == Some(olc)
      ensures isLocationPrecise == old(isLocationPrecise)
      ensures locationUpdatesRunning == old(locationUpdatesRunning)
      ensures views.Shown() == Labels(olc[0..4], olc[4..8], olc[8..11], lastUpdatedMessage, !isLocationPrecise)
      ensures !views.refreshing
    {
      SetFullLocationCode(Some(olc));
      UpdateViews(lastUpdatedMessage);
    }

    /** The location-updates callback: a result without locations is
        ignored; otherwise the last fix is encoded and shown. */
    method OnLocationResult(locations: seq<Location>, lastUpdatedMessage: string)
      requires Valid()
      modifies this, views
      ensures Valid()
      ensures locations == [] ==> unchanged(this) && unchanged(views)
      ensures locations != [] ==>
        var last := locations[|locations| - 1];
        var olc := encode(last.latitude, last.longitude);
        && Code() == Assign(old(Code()), Some(olc))
        && fullLocationCode == Some(olc)
        && isLocationPrecise == old(isLocationPrecise)
        && locationUpdatesRunning == old(locationUpdatesRunning)
        && views.Shown() == Labels(olc[0..4], olc[4..8], olc[8..11], lastUpdatedMessage, !isLocationPrecise)
        && !views.refreshing
    {
      if |locations| == 0 {
        return;
      }
      var location := locations[|locations| - 1];
      var olc := encode(location.latitude, location.longitude);
      UpdateAll(olc, lastUpdatedMessage);
    }
  }
}
