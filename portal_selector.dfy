/**
 * The string form of the `portal` parameter of `build_portal_params`
 * (fmrest/utils.py:63): every portal name wrapped in double quotes, the quoted
 * names joined by a comma and a space, and the whole enclosed in square
 * brackets, e.g. `["Portal1", "Portal2"]`. Names are not escaped.
 *
 * The module also holds a reader for that text, used only to state what the
 * text carries: for names without a double quote the names can be read back,
 * and with a double quote inside a name two different lists can give the
 * same text.
 */
module PortalSelector {
  import opened Wrappers

  const Separator: string := ", "

  /** A name between double quotes, nothing escaped (the lambda of line 63). */
  function Quoted(name: string): string {
    "\"" + name + "\""
  }

  function QuoteAll(names: seq<string>): seq<string> {
    if names == [] then [] else [Quoted(names[0])] + QuoteAll(names[1..])
  }

  /** Python's `sep.join(parts)`: `sep` between consecutive parts, nothing around them. */
  function Join(sep: string, parts: seq<string>): string {
    if |parts| == 0 then ""
    else if |parts| == 1 then parts[0]
    else parts[0] + sep + Join(sep, parts[1..])
  }

  /** The value of `portal_param` on line 63 for the names of line 61. */
  function SelectorText(names: seq<string>): string {
    "[" + Join(Separator, QuoteAll(names)) + "]"
  }

  predicate QuoteFree(name: string) {
    '\"' !in name
  }

  /** Position of the first double quote in `s`, if there is one. */
  function FindQuote(s: string): (r: Option<nat>)
    ensures r.Some? ==> r.value < |s| && s[r.value] == '\"' && QuoteFree(s[..r.value])
    ensures r.None? ==> QuoteFree(s)
  {
    if s == [] then None
    else if s[0] == '\"' then Some(0)
    else match FindQuote(s[1..])
      case None => None
      case Some(k) =>
        assert s[..k + 1] == [s[0]] + s[1..][..k];
        Some(k + 1)
  }

  /** Reads a non-empty run of quoted names separated by `", "`. */
  function ParseQuotedList(s: string): Option<seq<string>>
    decreases |s|
  {
    if |s| == 0 || s[0] != '\"' then None
    else match FindQuote(s[1..])
      case None => None
      case Some(k) =>
        var rest := s[k + 2..];
        if rest == [] then Some([s[1..k + 1]])
        else if |rest| >= 2 && rest[..2] == Separator then
          match ParseQuotedList(rest[2..])
          case None => None
          case Some(tail) => Some([s[1..k + 1]] + tail)
        else None
  }

  /** Reads the names back from a bracketed, quoted list such as `["A", "B"]`. */
  function ParseSelector(text: string): Option<seq<string>> {
    if |text| >= 2 && text[0] == '[' && text[|text| - 1] == ']' then
      var inner := text[1..|text| - 1];
      if inner == [] then Some([]) else ParseQuotedList(inner)
    else None
  }

  lemma FindQuoteAfter(name: string, tail: string)
    requires QuoteFree(name)
    ensures FindQuote(name + "\"" + tail) == Some(|name|)
  {
    var s := name + "\"" + tail;
    assert s[..|name|] == name;
    assert s[|name|] == '\"';
  }

  lemma ParseLastName(name: string)
    requires QuoteFree(name)
    ensures ParseQuotedList(Quoted(name)) == Some([name])
  {
    var s := Quoted(name);
    assert s[1..] == name + "\"" + "";
    FindQuoteAfter(name, "");
    assert s[1..|name| + 1] == name;
  }

  lemma ParseNextName(name: string, rest: string)
    requires QuoteFree(name)
    ensures ParseQuotedList(Quoted(name) + Separator + rest)
         == match ParseQuotedList(rest)
            case None => None
            case Some(tail) => Some([name] + tail)
  {
    var s := Quoted(name) + Separator + rest;
    assert s[1..] == name + "\"" + (Separator + rest);
    FindQuoteAfter(name, Separator + rest);
    assert s[1..|name| + 1] == name;
    var after := s[|name| + 2..];
    assert after == Separator + rest;
    assert after[..2] == Separator && after[2..] == rest;
  }

  lemma {:induction false} ParseJoinedNames(names: seq<string>)
    requires names != []
    requires forall i :: 0 <= i < |names| ==> QuoteFree(names[i])
    ensures ParseQuotedList(Join(Separator, QuoteAll(names))) == Some(names)
  {
    var quoted := QuoteAll(names);
    assert quoted[0] == Quoted(names[0]) && quoted[1..] == QuoteAll(names[1..]);
    if |names| == 1 {
      assert quoted == [Quoted(names[0])];
      ParseLastName(names[0]);
      assert names == [names[0]];
    } else {
      ParseNextName(names[0], Join(Separator, QuoteAll(names[1..])));
      ParseJoinedNames(names[1..]);
      assert [names[0]] + names[1..] == names;
    }
  }

  /**
   * Round trip: when no name contains a double quote, the text of line 63
   * determines the list of names, order and duplicates included.
   */
  lemma {:induction false} SelectorTextRoundTrip(names: seq<string>)
    requires forall i :: 0 <= i < |names| ==> QuoteFree(names[i])
    ensures ParseSelector(SelectorText(names)) == Some(names)
  {
    var text := SelectorText(names);
    assert text[1..|text| - 1] == Join(Separator, QuoteAll(names));
    if names != [] {
      ParseJoinedNames(names);
    }
  }

  /** The empty list of names gives the text `[]`. */
  lemma EmptySelectorText()
    ensures SelectorText([]) == "[]"
  {
  }

  /** A two-name case: names `A` and `B` give the text `["A", "B"]`. */
  lemma TwoNameSelectorText()
    ensures SelectorText(["A", "B"]) == "[\"A\", \"B\"]"
  {
  }

  /**
   * Names are not escaped: a name holding `", "` between quotes renders like
   * two separate names, so the text alone no longer determines the list.
   * This is why `SelectorTextRoundTrip` is stated only for quote-free names.
   */
  lemma UnescapedNamesCollide()
    ensures SelectorText(["A\", \"B"]) == SelectorText(["A", "B"])
  {
  }
}
