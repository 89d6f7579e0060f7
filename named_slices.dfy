/** A list of named items that can be indexed by position, by name, or by a
    slice whose bounds may be names (`NamedIndexes` in snippets/named_slices.py).
    Names match up to ASCII case, and a named stop bound is end-inclusive. */
module NamedSlices {
  import opened Common

  /** An item of the list; it carries only its name. */
  datatype NamedIndex = NamedIndex(name: string)

  /** A slice bound: left out, a non-negative number, or a name. */
  datatype Bound = Absent | At(n: nat) | Named(s: string)

  /** What `__getitem__` is given: an integer, a string, a slice, or anything else. */
  datatype Index =
    | Position(i: int)
    | Key(s: string)
    | Range(start: Bound, stop: Bound, step: Option<int>)
    | Other

  /** What `__getitem__` returns: one item, a list of items, or `None` (an index
      of any other type falls through every branch). */
  datatype Selected = Item(x: NamedIndex) | Items(xs: seq<NamedIndex>) | Nothing

  /** The `IndexError`s that `__getitem__` raises. */
  datatype SliceError =
    | IndexOutOfRange(i: int)    // the list's own error for `self._phases[index]`
    | KeyNotFound(s: string)     // line 43
    | StartNotFound(s: string)   // line 54
    | StopNotFound(s: string)    // line 60

  function NameList(items: seq<NamedIndex>): (r: seq<string>)
    ensures |r| == |items| && forall i :: 0 <= i < |items| ==> r[i] == items[i].name
  {
    seq(|items|, i requires 0 <= i < |items| => items[i].name)
  }

  /** A start bound as a position: a name is replaced by its first match. */
  function StartOf(items: seq<NamedIndex>, b: Bound): (r: Result<Option<nat>, SliceError>)
    ensures r.Err? <==> b.Named? && forall j :: 0 <= j < |items| ==> !SameName(items[j].name, b.s)
    ensures r.Ok? && b.Named? ==>
              r.value.Some? && r.value.value < |items| && SameName(items[r.value.value].name, b.s) &&
              forall j :: 0 <= j < r.value.value ==> !SameName(items[j].name, b.s)
  {
    match b
    case Absent => Ok(None)
    case At(n) => Ok(Some(n))
    case Named(s) =>
      match FirstMatch(NameList(items), s)
      case None => Err(StartNotFound(s))
      case Some(k) => Ok(Some(k))
  }

  /** A stop bound as a position: a name is replaced by its first match plus
      one, so the named item is included. */
  function StopOf(items: seq<NamedIndex>, b: Bound): (r: Result<Option<nat>, SliceError>)
    ensures r.Err? <==> b.Named? && forall j :: 0 <= j < |items| ==> !SameName(items[j].name, b.s)
    ensures r.Ok? && b.Named? ==>
              r.value.Some? && 1 <= r.value.value <= |items| && SameName(items[r.value.value - 1].name, b.s) &&
              forall j :: 0 <= j < r.value.value - 1 ==> !SameName(items[j].name, b.s)
  {
    match b
    case Absent => Ok(None)
    case At(n) => Ok(Some(n))
    case Named(s) =>
      match FirstMatch(NameList(items), s)
      case None => Err(StopNotFound(s))
      case Some(k) => Ok(Some(k + 1))
  }

  /** Python's `items[lo:hi]` for absent or non-negative bounds: both are
      clipped to the length, and a stop at or before the start gives an empty list. */
  function SliceOf(items: seq<NamedIndex>, lo: Option<nat>, hi: Option<nat>): (r: seq<NamedIndex>)
    ensures |r| <= |items|
    ensures lo.None? && hi.None? ==> r == items
    ensures lo.Some? && hi.Some? && lo.value <= hi.value <= |items| ==> r == items[lo.value..hi.value]
    ensures lo.Some? && hi.Some? && hi.value <= lo.value ==> r == []
    ensures hi.Some? && hi.value == 0 ==> r == []
  {
    var l := if lo.None? then 0 else if lo.value > |items| then |items| else lo.value;
    var h := if hi.None? || hi.value > |items| then |items| else hi.value;
    if h <= l then [] else items[l..h]
  }

  /** `__getitem__` (lines 22-68) on the list of items. The slice step is
      always 1, whatever step was given. */
  function Select(items: seq<NamedIndex>, index: Index): (r: Result<Selected, SliceError>)
  {
    match index
    case Position(i) =>
      if -|items| <= i < |items| then Ok(Item(items[if i < 0 then i + |items| else i]))
      else Err(IndexOutOfRange(i))
    case Key(s) =>
      (match FirstMatch(NameList(items), s)
       case None => Err(KeyNotFound(s))
       case Some(k) => Ok(Item(items[k])))
    case Range(start, stop, _) =>
      (match StartOf(items, start)
       case Err(e) => Err(e)
       case Ok(lo) =>
         match StopOf(items, stop)
         case Err(e) => Err(e)
         case Ok(hi) => Ok(Items(SliceOf(items, lo, hi))))
    case Other => Ok(Nothing)
  }

  /** The error the file as written runs into: a name no scope defines. */
  datatype NameError = NameError(name: string)

  /** `index_exists` as written (line 20): it reads `i`, which is bound only
      inside the comprehension of `index_names`. */
  function IndexExistsAsWritten(indexes: seq<NamedIndex>, name: string): Result<bool, NameError>
  {
    Err(NameError("i"))
  }

  /** `add_index` as written (lines 12-14): its existence test raises first. */
  function AddIndexAsWritten(indexes: seq<NamedIndex>, name: string): Result<seq<NamedIndex>, NameError>
  {
    match IndexExistsAsWritten(indexes, name)
    case Err(e) => Err(e)
    case Ok(b) => Ok(if b then indexes else indexes + [NamedIndex(name)])
  }

  /** `__getitem__` as written (line 34): the first type test names the module
      `types`, which the file never imports. */
  function SelectAsWritten(items: seq<NamedIndex>, index: Index): Result<Selected, NameError>
  {
    Err(NameError("types"))
  }

  class NamedIndexes {
    var indexes: seq<NamedIndex>

    /** No name is stored twice with the same spelling. */
    ghost predicate Valid()
      reads this
    {
      forall i, j :: 0 <= i < j < |indexes| ==> indexes[i].name != indexes[j].name
    }

    /** `__init__` (lines 9-10). */
    constructor ()
      ensures Valid() && indexes == []
    {
      indexes := [];
    }

    /** `index_names` (lines 16-18). */
    function IndexNames(): (r: seq<string>)
      reads this
      ensures |r| == |indexes| && forall i :: 0 <= i < |indexes| ==> r[i] == indexes[i].name
    {
      NameList(indexes)
    }

    /** `index_exists` (lines 19-20), an exact-case membership test. */
    predicate IndexExists(name: string)
      reads this
    {
      name in IndexNames()
    }

    /** `add_index` (lines 12-14): a new name goes at the end, a name already
        present (with the same spelling) changes nothing. */
    method AddIndex(name: string)
      requires Valid()
      modifies this
      ensures Valid()
      ensures old(IndexExists(name)) ==> indexes == old(indexes)
      ensures !old(IndexExists(name)) ==> indexes == old(indexes) + [NamedIndex(name)]
      ensures IndexExists(name)
    {
      if !IndexExists(name) {
        indexes := indexes + [NamedIndex(name)];
        assert IndexNames()[|indexes| - 1] == name;
      }
    }

    /** `__search_index` (lines 27-32): the position of the first item whose
        name equals `name` up to ASCII case, found by a scan that returns early. */
    method SearchIndex(name: string) returns (r: Option<nat>)
      ensures r.Some? ==> r.value < |indexes| && SameName(indexes[r.value].name, name)
      ensures r.Some? ==> forall j :: 0 <= j < r.value ==> !SameName(indexes[j].name, name)
      ensures r.None? <==> forall j :: 0 <= j < |indexes| ==> !SameName(indexes[j].name, name)
      ensures r == FirstMatch(IndexNames(), name)
    {
      var ix := 0;
      while ix < |indexes|
        invariant 0 <= ix <= |indexes|
        invariant forall j :: 0 <= j < ix ==> !SameName(indexes[j].name, name)
      {
        if SameName(indexes[ix].name, name) {
          return Some(ix);
        }
        ix := ix + 1;
      }
      return None;
    }

    /** `__getitem__` (lines 22-68). */
    method GetItem(index: Index) returns (r: Result<Selected, SliceError>)
      ensures r == Select(indexes, index)
    {
      match index
      case Position(i) =>
        if -|indexes| <= i < |indexes| {
          var k := if i < 0 then i + |indexes| else i;
          r := Ok(Item(indexes[k]));
        } else {
          r := Err(IndexOutOfRange(i));
        }
      case Key(s) =>
        var si := SearchIndex(s);
        if si.Some? {
          r := Ok(Item(indexes[si.value]));
        } else {
          r := Err(KeyNotFound(s));
        }
      case Range(start, stop, _) =>
        var lo: Option<nat> := if start.At? then Some(start.n) else None;
        if start.Named? {
          var si := SearchIndex(start.s);
          if si.None? {
            return Err(StartNotFound(start.s));
          }
          lo := si;
        }
        assert StartOf(indexes, start) == Ok(lo);
        var hi: Option<nat> := if stop.At? then Some(stop.n) else None;
        if stop.Named? {
          var si := SearchIndex(stop.s);
          if si.None? {
            return Err(StopNotFound(stop.s));
          }
          hi := Some(si.value + 1);
        }
        assert StopOf(indexes, stop) == Ok(hi);
        r := Ok(Items(SliceOf(indexes, lo, hi)));
      case Other =>
        r := Ok(Nothing);
    }
  }
}
