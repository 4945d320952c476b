/** The location-code record shared by the wear and mobile state holders:
    the full Open Location Code string (absent until the first fix arrives)
    and the three display segments sliced out of it by fixed offsets. */
module LocationCode {

  /** Kotlin's nullable `String?`. */
  datatype Option<+T> = None | Some(value: T)

  /** A string the setter can slice without failing. Every full code the
      encoding library produces (eight digits, '+', two digits or more) has
      at least 11 characters. */
  type Code = s: string | |s| >= 11 witness "XXXXYYYY+ZZ"

  /** The three display segments: region prefix, area segment, plus suffix. */
  datatype Parts = Parts(region: string, area: string, plus: string)

  /** What the screen shows before any code has arrived. */
  const PLACEHOLDERS := Parts("XXXX", "YYYY", "+ZZ")

  predicate WellFormed(p: Parts) {
    |p.region| == 4 && |p.area| == 4 && |p.plus| == 3
  }

  /** The segments read left to right. */
  function Joined(p: Parts): string {
    p.region + p.area + p.plus
  }

  /** Region is [0,4), area [4,8), plus [8,11); anything past the 11th
      character is not displayed. */
  function Slice(code: string): (p: Parts)
    requires |code| >= 11
    ensures WellFormed(p)
    ensures Joined(p) == code[..11]
  {
    Parts(code[0..4], code[4..8], code[8..11])
  }

  /** Slicing undoes joining: the segments are recovered from their
      concatenation. */
  lemma SliceJoined(p: Parts)
    requires WellFormed(p)
    ensures Slice(Joined(p)) == p
  {
  }

  /** Two codes give the same segments exactly when their first 11
      characters agree. */
  lemma SliceDeterminedByPrefix(a: string, b: string)
    requires |a| >= 11 && |b| >= 11
    ensures Slice(a) == Slice(b) <==> a[..11] == b[..11]
  {
  }

  /** The state the `fullLocationCode` setter works on. */
  datatype CodeState = CodeState(full: Option<string>, parts: Parts)

  /** A freshly constructed state holder. */
  const INITIAL := CodeState(None, PLACEHOLDERS)

  /** A value the setter accepts without the substring calls failing. */
  predicate Assignable(value: Option<string>) {
    value.Some? ==> |value.value| >= 11
  }

  /** The invariant of the state holder: the segments are the placeholders
      while no code has arrived, and the slices of the stored code after. */
  predicate Consistent(st: CodeState) {
    WellFormed(st.parts) &&
    match st.full
    case None => st.parts == PLACEHOLDERS
    case Some(code) => |code| >= 11 && st.parts == Slice(code)
  }

  /** The `fullLocationCode` setter: null is ignored (a code, once set, is
      never cleared); a code is stored and sliced. */
  function Assign(st: CodeState, value: Option<string>): (r: CodeState)
    requires Assignable(value)
    ensures Consistent(st) ==> Consistent(r)
    ensures st.full.Some? ==> r.full.Some?
  {
    match value
    case None => st
    case Some(code) => CodeState(value, Slice(code))
  }

  lemma InitialConsistent()
    ensures Consistent(INITIAL) && INITIAL.full.None?
    ensures Joined(INITIAL.parts) == "XXXXYYYY+ZZ"
  {
  }

  /** Assigning null leaves the code and all three segments as they were. */
  lemma AssignNullUnchanged(st: CodeState)
    ensures Assign(st, None) == st
  {
  }

  /** Assigning a code stores it and slices it at 4, 8 and 11. */
  lemma AssignCode(st: CodeState, code: string)
    requires |code| >= 11
    ensures Assign(st, Some(code)).full == Some(code)
    ensures Assign(st, Some(code)).parts.region == code[0..4]
    ensures Assign(st, Some(code)).parts.area == code[4..8]
    ensures Assign(st, Some(code)).parts.plus == code[8..11]
    ensures Joined(Assign(st, Some(code)).parts) == code[..11]
  {
  }

  /** Assigning the same value twice is the same as assigning it once. */
  lemma AssignIdempotent(st: CodeState, value: Option<string>)
    requires Assignable(value)
    ensures Assign(Assign(st, value), value) == Assign(st, value)
  {
  }

  /** Assignments of a series of values, one after the other (as the wear
      app does for every location of one result). */
  function AssignAll(st: CodeState, values: seq<Option<string>>): CodeState
    requires forall v :: v in values ==> Assignable(v)
    decreases |values|
  {
    if values == [] then st else AssignAll(Assign(st, values[0]), values[1..])
  }

  /** Reference definition: the last non-null value of the series, or
      `fallback` when there is none. */
  function LastNonNull(values: seq<Option<string>>, fallback: Option<string>): Option<string> {
    if values == [] then fallback
    else if values[|values| - 1].Some? then values[|values| - 1]
    else LastNonNull(values[..|values| - 1], fallback)
  }

  lemma {:induction false} AssignAllSnoc(st: CodeState, values: seq<Option<string>>, v: Option<string>)
    requires forall w :: w in values ==> Assignable(w)
    requires Assignable(v)
    ensures forall w :: w in values + [v] ==> Assignable(w)
    ensures AssignAll(st, values + [v]) == Assign(AssignAll(st, values), v)
    decreases |values|
  {
    if values == [] {
      assert [v][1..] == [];
    } else {
      assert (values + [v])[1..] == values[1..] + [v];
      AssignAllSnoc(Assign(st, values[0]), values[1..], v);
    }
  }

  /** After a series of assignments the stored code is the last non-null
      value assigned, or the code held before when every value was null. */
  lemma {:induction false} AssignAllLastWins(st: CodeState, values: seq<Option<string>>)
    requires forall v :: v in values ==> Assignable(v)
    ensures AssignAll(st, values).full == LastNonNull(values, st.full)
    decreases |values|
  {
    if values != [] {
      var init, last := values[..|values| - 1], values[|values| - 1];
      assert values == init + [last];
      assert forall w :: w in init ==> w in values;
      AssignAllSnoc(st, init, last);
      AssignAllLastWins(st, init);
    }
  }

  /** Once a code is stored, no series of assignments makes it null again. */
  lemma {:induction false} AssignAllSticky(st: CodeState, values: seq<Option<string>>)
    requires forall v :: v in values ==> Assignable(v)
    requires st.full.Some?
    ensures AssignAll(st, values).full.Some?
    decreases |values|
  {
    if values != [] {
      AssignAllSticky(Assign(st, values[0]), values[1..]);
    }
  }

  /** Every series of assignments keeps the segments the slices of the
      stored code (or the placeholders while there is none). */
  lemma {:induction false} AssignAllConsistent(st: CodeState, values: seq<Option<string>>)
    requires forall v :: v in values ==> Assignable(v)
    requires Consistent(st)
    ensures Consistent(AssignAll(st, values))
    decreases |values|
  {
    if values != [] {
      AssignAllConsistent(Assign(st, values[0]), values[1..]);
    }
  }
}
