/** Route patterns: parsing "host/path" and "host/path*". */
module Patterns {
  import opened Prelude

  datatype Kind = Exact | Prefix

  datatype Pattern = Pattern(host: string, slot: string, kind: Kind, value: string)

  // ---- Parsing ----

  /** White space and line terminators, as `trim` and `\s` see them. */
  predicate IsSpace(c: char) {
    || '\U{9}' <= c <= '\U{D}' || c == ' ' || c == '\U{A0}' || c == '\U{1680}'
    || '\U{2000}' <= c <= '\U{200A}' || c == '\U{2028}' || c == '\U{2029}' || c == '\U{202F}'
    || c == '\U{205F}' || c == '\U{3000}' || c == '\U{FEFF}'
  }

  function TrimStart(s: string): string {
    if s != [] && IsSpace(s[0]) then TrimStart(s[1..]) else s
  }

  function TrimEnd(s: string): string {
    if s != [] && IsSpace(Last(s)) then TrimEnd(s[..|s| - 1]) else s
  }

  function Find(s: string, c: char): (i: nat)
    ensures i <= |s| && (i < |s| ==> s[i] == c) && forall j :: 0 <= j < i ==> s[j] != c
  {
    if s == [] then 0 else if s[0] == c then 0 else 1 + Find(s[1..], c)
  }

  function Lower(c: char): char {
    if 'A' <= c <= 'Z' then c - 'A' + 'a' else c
  }

  predicate StartsWithIgnoringCase(s: string, prefix: string) {
    |prefix| <= |s| && forall i :: 0 <= i < |prefix| ==> Lower(s[i]) == prefix[i]
  }

  predicate HasScheme(s: string) {
    StartsWithIgnoringCase(s, "http://") || StartsWithIgnoringCase(s, "https://")
  }

  /** The path half: `*` only at the end. */
  function ParsePath(path: string): Option<(Kind, string)> {
    if exists i :: 0 <= i < |path| && IsSpace(path[i]) then None
    else if Find(path, '*') < |path| - 1 then None
    else if path != [] && Last(path) == '*' then Some((Prefix, path[..|path| - 1]))
    else Some((Exact, path))
  }

  /** parsePattern; `normalize` is the host check, including the platform-domain rule. */
  function ParsePattern(raw: string, normalize: string -> Option<string>): Option<Pattern> {
    var s := TrimEnd(TrimStart(raw));
    if s == [] || HasScheme(s) || '?' in s || '#' in s then None
    else
      var slash := Find(s, '/');
      if slash == |s| || slash == 0 then None
      else
        var host, path := s[..slash], s[slash..];
        if '*' in host then None
        else
          match (ParsePath(path), normalize(host))
          case (Some((kind, value)), Some(h)) => Some(Pattern(h, path, kind, value))
          case _ => None
  }

  function SlotOf(kind: Kind, value: string): string {
    if kind == Prefix then value + ['*'] else value
  }

  /** A slot's kind and value determine it, as parsing promises. */
  predicate SlotOk(kind: Kind, value: string, slot: string) {
    && slot == SlotOf(kind, value) && value != [] && value[0] == '/'
    && (forall i :: 0 <= i < |value| ==> value[i] != '*' && value[i] != '?' && value[i] != '#' && !IsSpace(value[i]))
  }

  lemma ParsedPath(path: string)
    requires path != [] && path[0] == '/' && '?' !in path && '#' !in path && ParsePath(path).Some?
    ensures var (kind, value) := ParsePath(path).value; SlotOk(kind, value, path)
  {
    var n := |path| - 1;
    assert path == path[..n] + [path[n]];
  }

  /** What parsing promises of the stored slot, and that it reads every such slot back. */
  lemma ParsedSlot(raw: string, normalize: string -> Option<string>)
    requires ParsePattern(raw, normalize).Some?
    ensures var p := ParsePattern(raw, normalize).value; SlotOk(p.kind, p.value, p.slot)
  {
    var s := TrimEnd(TrimStart(raw));
    var slash := Find(s, '/');
    var path := s[slash..];
    assert forall c :: c in path ==> c in s;
    ParsedPath(path);
  }

  lemma SlotRoundTrip(kind: Kind, value: string)
    requires SlotOk(kind, value, SlotOf(kind, value))
    ensures ParsePath(SlotOf(kind, value)) == Some((kind, value))
  {
    var path := SlotOf(kind, value);
    assert forall i :: 0 <= i < |value| ==> path[i] == value[i];
    if kind == Prefix { assert path[..|path| - 1] == value; }
  }

  /** Distinct kinds or values get distinct slots. */
  lemma SlotInjective(k1: Kind, v1: string, k2: Kind, v2: string)
    requires SlotOk(k1, v1, SlotOf(k1, v1)) && SlotOk(k2, v2, SlotOf(k2, v2))
    ensures SlotOf(k1, v1) == SlotOf(k2, v2) <==> k1 == k2 && v1 == v2
  {
    SlotRoundTrip(k1, v1);
    SlotRoundTrip(k2, v2);
  }

  predicate DistinctRoutes(ps: seq<Pattern>) {
    forall i, j :: 0 <= i < j < |ps| ==> ps[i].host != ps[j].host || ps[i].slot != ps[j].slot
  }

  /** parseRoutes: all patterns in order, or failure when one is invalid or repeats a host and slot. */
  method ParseRoutes(raws: seq<string>, normalize: string -> Option<string>) returns (routes: Option<seq<Pattern>>)
    ensures routes.Some? ==>
      && |routes.value| == |raws| && DistinctRoutes(routes.value)
      && forall i :: 0 <= i < |raws| ==> ParsePattern(raws[i], normalize) == Some(routes.value[i])
    ensures routes.None? ==>
      || (exists i :: 0 <= i < |raws| && ParsePattern(raws[i], normalize).None?)
      || (exists i, j :: 0 <= i < j < |raws|
            && ParsePattern(raws[i], normalize).Some? && ParsePattern(raws[j], normalize).Some?
            && ParsePattern(raws[i], normalize).value.host == ParsePattern(raws[j], normalize).value.host
            && ParsePattern(raws[i], normalize).value.slot == ParsePattern(raws[j], normalize).value.slot)
  {
    hide ParsePattern;
    var seen: set<(string, string)>, out: seq<Pattern> := {}, [];
    for i := 0 to |raws|
      invariant |out| == i && DistinctRoutes(out)
      invariant forall j :: 0 <= j < i ==> ParsePattern(raws[j], normalize) == Some(out[j])
      invariant seen == set j | 0 <= j < i :: (out[j].host, out[j].slot)
    {
      var parsed := ParsePattern(raws[i], normalize);
      if parsed.None? { return None; }
      var key := (parsed.value.host, parsed.value.slot);
      if key in seen {
        ghost var j :| 0 <= j < i && (out[j].host, out[j].slot) == key;
        assert ParsePattern(raws[j], normalize) == Some(out[j]);
        return None;
      }
      seen := seen + {key};
      out := out + [parsed.value];
    }
    routes := Some(out);
  }
}
