/**
 * A row of the onboarding table described by a dictionary: the onboarding sections it
 * stands for, its title and its text. The section type is generic, with its raw-value
 * parser passed in.
 */
module OnboardingRow {
  import opened Wrappers
  import opened PropertyList

  /** Each string's parse, in order. */
  function Parsed<T>(xs: seq<string>, parse: string -> Option<T>): (r: seq<Option<T>>)
    ensures |r| == |xs|
    ensures forall i :: 0 <= i < |xs| ==> r[i] == parse(xs[i])
  {
    seq(|xs|, i requires 0 <= i < |xs| => parse(xs[i]))
  }

  /** `mapAndFilter`: the parses of the strings, in order, with the strings that do not parse dropped. */
  function MapAndFilter<T>(xs: seq<string>, parse: string -> Option<T>): (r: seq<T>)
    ensures |r| <= |xs|
  {
    Somes(Parsed(xs, parse))
  }

  /** Nothing is left exactly when no string parses. */
  lemma MapAndFilterEmptyIff<T>(xs: seq<string>, parse: string -> Option<T>)
    ensures MapAndFilter(xs, parse) == [] <==> forall i :: 0 <= i < |xs| ==> parse(xs[i]).None?
  {
    SomesEmptyIff(Parsed(xs, parse));
  }

  /** Every section returned is the parse of some input string. */
  lemma MapAndFilterSound<T>(xs: seq<string>, parse: string -> Option<T>)
    ensures forall k :: 0 <= k < |MapAndFilter(xs, parse)| ==>
      exists i :: 0 <= i < |xs| && parse(xs[i]) == Some(MapAndFilter(xs, parse)[k])
  {
    var ps := Parsed(xs, parse);
    assert MapAndFilter(xs, parse) == Somes(ps);
    SomesSound(ps);
  }

  /** Parsing distributes over concatenation of the input lists, so input order is kept. */
  lemma MapAndFilterAppend<T>(a: seq<string>, b: seq<string>, parse: string -> Option<T>)
    ensures MapAndFilter(a + b, parse) == MapAndFilter(a, parse) + MapAndFilter(b, parse)
  {
    assert Parsed(a + b, parse) == Parsed(a, parse) + Parsed(b, parse);
    SomesAppend(Parsed(a, parse), Parsed(b, parse));
  }

  /** When every string is recognised, nothing is dropped and the i-th section is the parse of the i-th string. */
  lemma MapAndFilterAllRecognised<T>(xs: seq<string>, parse: string -> Option<T>)
    requires forall i :: 0 <= i < |xs| ==> parse(xs[i]).Some?
    ensures |MapAndFilter(xs, parse)| == |xs|
    ensures forall i :: 0 <= i < |xs| ==> Some(MapAndFilter(xs, parse)[i]) == parse(xs[i])
  {
    SomesAllPresent(Parsed(xs, parse));
  }

  /**
   * The section types of the row: the recognised strings of its "sections" list, in order;
   * none when the key is missing or does not hold a list of strings.
   */
  function OnboardingSectionTypes<T>(d: Dictionary, parse: string -> Option<T>): (r: seq<T>)
    ensures StringListFor(d, "sections").None? ==> r == []
    ensures StringListFor(d, "sections").Some? ==>
      var names := StringListFor(d, "sections").value;
      && |r| <= |names|
      && (r == [] <==> forall i :: 0 <= i < |names| ==> parse(names[i]).None?)
      && forall k :: 0 <= k < |r| ==> exists i :: 0 <= i < |names| && parse(names[i]) == Some(r[k])
    ensures StringListFor(d, "sections").Some? ==> r == MapAndFilter(StringListFor(d, "sections").value, parse)
  {
    match StringListFor(d, "sections")
    case None => []
    case Some(names) =>
      MapAndFilterEmptyIff(names, parse);
      MapAndFilterSound(names, parse);
      MapAndFilter(names, parse)
  }

  /** The row's title; the dictionary must hold a string under "title" (the source force-casts it). */
  function Title(d: Dictionary): (r: string)
    requires "title" in d && d["title"].PString?
    ensures d["title"] == PString(r)
  {
    d["title"].s
  }

  /** The row's text; the dictionary must hold a string under "text". */
  function Text(d: Dictionary): (r: string)
    requires "text" in d && d["text"].PString?
    ensures d["text"] == PString(r)
  {
    d["text"].s
  }
}
