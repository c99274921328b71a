/**
 * `build_portal_params(portals, names_as_string)` (fmrest/utils.py:30-72):
 * turns a list of portal descriptors into the query parameters the database
 * server expects, e.g. `portal=["P1", "P2"]&offset.P1=1&range.P1=10`.
 *
 * The parameter dict is a `map`. Its first entry, `portal`, holds the names
 * (as a list, or as the bracketed text of `PortalSelector`); then every
 * descriptor, in order, writes `offset.<name>` and `range.<name>`, so a later
 * descriptor with the same name overwrites an earlier one.
 */
module PortalParams {
  import opened Wrappers
  import PortalSelector

  /** One descriptor dict: `name` is required, `offset` and `range` may be absent. */
  datatype Portal = Portal(name: string, offset: Option<int>, range: Option<int>)

  /** A parameter value: the list of names, the text form of it, or a number. */
  datatype Value = Names(names: seq<string>) | Text(text: string) | Num(n: int)

  type Params = map<string, Value>

  const PortalKey: string := "portal"
  const OffsetPrefix: string := "offset."
  const RangePrefix: string := "range."
  const DefaultOffset: int := 1
  const DefaultRange: int := 50

  function OffsetKey(name: string): string {
    OffsetPrefix + name
  }

  function RangeKey(name: string): string {
    RangePrefix + name
  }

  /** `portal.get('offset', 1)` */
  function OffsetOf(p: Portal): int {
    p.offset.GetOr(DefaultOffset)
  }

  /** `portal.get('range', 50)` */
  function RangeOf(p: Portal): int {
    p.range.GetOr(DefaultRange)
  }

  /** `portal_selector`: the names in input order, duplicates included (line 61). */
  function PortalNames(portals: seq<Portal>): seq<string> {
    seq(|portals|, i requires 0 <= i < |portals| => portals[i].name)
  }

  /** The value stored under `portal` (lines 62-66). */
  function Selector(portals: seq<Portal>, namesAsString: bool): Value {
    var names := PortalNames(portals);
    if namesAsString then Text(PortalSelector.SelectorText(names)) else Names(names)
  }

  /** The two writes one descriptor makes (lines 69-70). */
  function WriteLimits(params: Params, p: Portal): Params {
    params[OffsetKey(p.name) := Num(OffsetOf(p))][RangeKey(p.name) := Num(RangeOf(p))]
  }

  /** The loop of lines 68-70 run over `portals`, starting from `params`. */
  function WriteAll(params: Params, portals: seq<Portal>): Params
    decreases |portals|
  {
    if portals == [] then params
    else WriteLimits(WriteAll(params, portals[..|portals| - 1]), portals[|portals| - 1])
  }

  /** The dict `build_portal_params` returns. */
  function PortalParams(portals: seq<Portal>, namesAsString: bool := false): Params {
    WriteAll(map[PortalKey := Selector(portals, namesAsString)], portals)
  }

  /**
   * The function body of lines 61-72, with the loop over the descriptors.
   */
  method BuildPortalParams(portals: seq<Portal>, namesAsString: bool := false) returns (params: Params)
    ensures params == PortalParams(portals, namesAsString)
  {
    var names := PortalNames(portals);
    if namesAsString {
      params := map[PortalKey := Text(PortalSelector.SelectorText(names))];
    } else {
      params := map[PortalKey := Names(names)];
    }
    for i := 0 to |portals|
      invariant params == WriteAll(map[PortalKey := Selector(portals, namesAsString)], portals[..i])
    {
      var portal := portals[i];
      assert portals[..i + 1][..i] == portals[..i];
      params := params[OffsetKey(portal.name) := Num(OffsetOf(portal))];
      params := params[RangeKey(portal.name) := Num(RangeOf(portal))];
    }
    assert portals[..|portals|] == portals;
  }

  // Facts about the keys: the three prefixes never produce the same key.

  lemma KeysDistinct(a: string, b: string)
    ensures OffsetKey(a) != PortalKey && RangeKey(a) != PortalKey
    ensures OffsetKey(a) != RangeKey(b) && RangeKey(a) != OffsetKey(b)
    ensures OffsetKey(a) == OffsetKey(b) <==> a == b
    ensures RangeKey(a) == RangeKey(b) <==> a == b
  {
    assert OffsetKey(a)[0] == OffsetKey(b)[0] == 'o';
    assert RangeKey(a)[0] == RangeKey(b)[0] == 'r';
    assert PortalKey[0] == 'p';
    assert OffsetKey(a)[|OffsetPrefix|..] == a && OffsetKey(b)[|OffsetPrefix|..] == b;
    assert RangeKey(a)[|RangePrefix|..] == a && RangeKey(b)[|RangePrefix|..] == b;
  }

  /** The loop writes only `offset.` and `range.` keys, so `portal` keeps its value. */
  lemma {:induction false} WriteAllKeepsPortal(params: Params, portals: seq<Portal>)
    ensures PortalKey in params ==>
              PortalKey in WriteAll(params, portals) && WriteAll(params, portals)[PortalKey] == params[PortalKey]
    ensures PortalKey !in params ==> PortalKey !in WriteAll(params, portals)
    decreases |portals|
  {
    if portals != [] {
      var p := portals[|portals| - 1];
      WriteAllKeepsPortal(params, portals[..|portals| - 1]);
      KeysDistinct(p.name, p.name);
    }
  }

  /** The keys after the loop: the starting keys plus an offset and a range key per descriptor. */
  lemma {:induction false} WriteAllKeys(params: Params, portals: seq<Portal>)
    ensures WriteAll(params, portals).Keys
         == params.Keys
          + (set n | n in PortalNames(portals) :: OffsetKey(n))
          + (set n | n in PortalNames(portals) :: RangeKey(n))
    decreases |portals|
  {
    if portals != [] {
      var front := portals[..|portals| - 1];
      var p := portals[|portals| - 1];
      WriteAllKeys(params, front);
      assert PortalNames(portals) == PortalNames(front) + [p.name];
      assert (set n | n in PortalNames(portals) :: OffsetKey(n))
          == (set n | n in PortalNames(front) :: OffsetKey(n)) + {OffsetKey(p.name)};
      assert (set n | n in PortalNames(portals) :: RangeKey(n))
          == (set n | n in PortalNames(front) :: RangeKey(n)) + {RangeKey(p.name)};
    }
  }

  /**
   * The loop's value for a name: the descriptor at index `i` whose name no
   * later descriptor repeats decides `offset.<name>` and `range.<name>`.
   */
  lemma {:induction false} WriteAllLastWins(params: Params, portals: seq<Portal>, i: nat)
    requires i < |portals|
    requires forall j :: i < j < |portals| ==> portals[j].name != portals[i].name
    ensures OffsetKey(portals[i].name) in WriteAll(params, portals)
    ensures WriteAll(params, portals)[OffsetKey(portals[i].name)] == Num(OffsetOf(portals[i]))
    ensures RangeKey(portals[i].name) in WriteAll(params, portals)
    ensures WriteAll(params, portals)[RangeKey(portals[i].name)] == Num(RangeOf(portals[i]))
    decreases |portals|
  {
    var front := portals[..|portals| - 1];
    var p := portals[|portals| - 1];
    assert WriteAll(params, portals) == WriteLimits(WriteAll(params, front), p);
    KeysDistinct(p.name, portals[i].name);
    if i < |portals| - 1 {
      assert front[i] == portals[i];
      assert p.name != portals[i].name;
      WriteAllLastWins(params, front, i);
      assert OffsetKey(p.name) != OffsetKey(portals[i].name);
      assert RangeKey(p.name) != OffsetKey(portals[i].name);
    }
  }

  /**
   * With `names_as_string=False`, the default, `portal` is the list of names
   * in input order.
   */
  lemma PortalIsNameList(portals: seq<Portal>)
    ensures PortalKey in PortalParams(portals)
    ensures PortalParams(portals) == PortalParams(portals, false)
    ensures PortalParams(portals)[PortalKey] == Names(PortalNames(portals))
    ensures |PortalNames(portals)| == |portals|
    ensures forall i :: 0 <= i < |portals| ==> PortalNames(portals)[i] == portals[i].name
  {
    WriteAllKeepsPortal(map[PortalKey := Selector(portals, false)], portals);
  }

  /** With `names_as_string=True`, `portal` is `"[" + ", ".join('"' + n + '"' ...) + "]"`. */
  lemma PortalIsNameText(portals: seq<Portal>)
    ensures PortalKey in PortalParams(portals, true)
    ensures PortalParams(portals, true)[PortalKey]
         == Text("[" + PortalSelector.Join(", ", PortalSelector.QuoteAll(PortalNames(portals))) + "]")
  {
    WriteAllKeepsPortal(map[PortalKey := Selector(portals, true)], portals);
  }

  /**
   * Every descriptor that is the last one with its name sets `offset.<name>`
   * to its offset (1 if absent) and `range.<name>` to its range (50 if absent).
   */
  lemma LastDescriptorWins(portals: seq<Portal>, namesAsString: bool, i: nat)
    requires i < |portals|
    requires forall j :: i < j < |portals| ==> portals[j].name != portals[i].name
    ensures OffsetKey(portals[i].name) in PortalParams(portals, namesAsString)
    ensures PortalParams(portals, namesAsString)[OffsetKey(portals[i].name)]
         == Num(if portals[i].offset.Some? then portals[i].offset.value else 1)
    ensures RangeKey(portals[i].name) in PortalParams(portals, namesAsString)
    ensures PortalParams(portals, namesAsString)[RangeKey(portals[i].name)]
         == Num(if portals[i].range.Some? then portals[i].range.value else 50)
  {
    WriteAllLastWins(map[PortalKey := Selector(portals, namesAsString)], portals, i);
  }

  /** When names are unique, every descriptor decides its own two keys. */
  lemma UniqueNamesOwnLimits(portals: seq<Portal>, namesAsString: bool)
    requires forall i, j :: 0 <= i < j < |portals| ==> portals[i].name != portals[j].name
    ensures forall i :: 0 <= i < |portals| ==>
      && PortalParams(portals, namesAsString).Keys >= {OffsetKey(portals[i].name), RangeKey(portals[i].name)}
      && PortalParams(portals, namesAsString)[OffsetKey(portals[i].name)] == Num(OffsetOf(portals[i]))
      && PortalParams(portals, namesAsString)[RangeKey(portals[i].name)] == Num(RangeOf(portals[i]))
  {
    forall i | 0 <= i < |portals|
      ensures && PortalParams(portals, namesAsString).Keys >= {OffsetKey(portals[i].name), RangeKey(portals[i].name)}
              && PortalParams(portals, namesAsString)[OffsetKey(portals[i].name)] == Num(OffsetOf(portals[i]))
              && PortalParams(portals, namesAsString)[RangeKey(portals[i].name)] == Num(RangeOf(portals[i]))
    {
      LastDescriptorWins(portals, namesAsString, i);
    }
  }

  /** The keys are exactly `portal` and `offset.<n>`, `range.<n>` for every name `n`. */
  lemma ParamKeys(portals: seq<Portal>, namesAsString: bool)
    ensures PortalParams(portals, namesAsString).Keys
         == {PortalKey}
          + (set n | n in PortalNames(portals) :: OffsetPrefix + n)
          + (set n | n in PortalNames(portals) :: RangePrefix + n)
  {
    WriteAllKeys(map[PortalKey := Selector(portals, namesAsString)], portals);
  }

  /** No descriptors: only the `portal` key, holding `[]` or the text `"[]"`. */
  lemma NoPortals(namesAsString: bool)
    ensures PortalParams([], namesAsString)
         == map[PortalKey := if namesAsString then Text("[]") else Names([])]
  {
    assert PortalNames([]) == [];
    PortalSelector.EmptySelectorText();
  }

  /** A two-descriptor case: `A` with offset 2 and range 10, then `B` with neither. */
  lemma TwoPortalsExample(namesAsString: bool)
    ensures PortalParams([Portal("A", Some(2), Some(10)), Portal("B", None, None)], namesAsString)
         == map[
              "portal" := if namesAsString then Text("[\"A\", \"B\"]") else Names(["A", "B"]),
              "offset.A" := Num(2), "range.A" := Num(10),
              "offset.B" := Num(1), "range.B" := Num(50)]
  {
    var portals := [Portal("A", Some(2), Some(10)), Portal("B", None, None)];
    assert PortalNames(portals) == ["A", "B"];
    PortalSelector.TwoNameSelectorText();
    var start := map[PortalKey := Selector(portals, namesAsString)];
    assert portals[..1] == [portals[0]] && portals[..1][..0] == [];
    assert WriteAll(start, portals[..1]) == WriteLimits(start, portals[0]);
    assert PortalParams(portals, namesAsString) == WriteLimits(WriteLimits(start, portals[0]), portals[1]);
    assert OffsetKey("A") == "offset.A" && RangeKey("A") == "range.A";
    assert OffsetKey("B") == "offset.B" && RangeKey("B") == "range.B";
  }
}
