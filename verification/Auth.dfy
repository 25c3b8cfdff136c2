/** The bearer-token registry of internal/auth/auth.go: parsing the token list and looking tokens up. */
module Auth {
  import opened Seqs

  datatype TokenEntry = TokenEntry(name: string, token: string)

  /** White space as Go's strings.TrimSpace sees it. */
  predicate IsSpace(c: char) {
    var n := c as int;
    || 9 <= n <= 13 || n in {0x20, 0x85, 0xA0, 0x1680, 0x2028, 0x2029, 0x202F, 0x205F, 0x3000}
    || 0x2000 <= n <= 0x200A
  }

  /** Among ASCII characters these are the blank and the five control characters from tab to carriage return. */
  lemma AsciiSpaces(c: char)
    requires c as int < 128
    ensures IsSpace(c) <==> c in {' ', '\t', '\n', '\U{000B}', '\U{000C}', '\r'}
  {
  }

  predicate AllSpace(s: string) {
    forall i :: 0 <= i < |s| ==> IsSpace(s[i])
  }

  function TrimLeft(s: string): string {
    if s != "" && IsSpace(s[0]) then TrimLeft(s[1..]) else s
  }

  function TrimRight(s: string): string {
    if s != "" && IsSpace(s[|s| - 1]) then TrimRight(s[..|s| - 1]) else s
  }

  function TrimSpace(s: string): string {
    TrimRight(TrimLeft(s))
  }

  /** The position of the first `c`, or the length if there is none. */
  function IndexOf(s: string, c: char): (i: nat)
    ensures i <= |s|
    ensures forall k :: 0 <= k < i ==> s[k] != c
    ensures i < |s| ==> s[i] == c
  {
    if s == "" || s[0] == c then 0 else 1 + IndexOf(s[1..], c)
  }

  /** The segments between commas. */
  function Split(s: string): (r: seq<string>)
    ensures forall k :: 0 <= k < |r| ==> ',' !in r[k]
  {
    var i := IndexOf(s, ',');
    if i == |s| then (assert s[..i] == s; [s]) else [s[..i]] + Split(s[i + 1..])
  }

  /** An entry is what stands around the first colon of a trimmed segment, if both sides are non-empty. */
  function ParsePair(segment: string): Option<TokenEntry> {
    var pair := TrimSpace(segment);
    var i := IndexOf(pair, ':');
    if pair == "" || i == |pair| || pair[..i] == "" || pair[i + 1..] == "" then None
    else Some(TokenEntry(pair[..i], pair[i + 1..]))
  }

  function ParseTokens(v: string): seq<TokenEntry> {
    FilterMap(ParsePair, Split(v))
  }

  class TokenRegistry {
    var entries: seq<TokenEntry>

    constructor ()
      ensures entries == []
    {
      entries := [];
    }

    /**
     `tokens` and `token` are JIG_AUTH_TOKENS and JIG_AUTH_TOKEN, empty when unset; the plural form wins even if
     malformed.
     */
    method InitTokenRegistry(tokens: string, token: string)
      modifies this
      ensures entries ==
        if tokens != "" then (if ParseTokens(tokens) != [] then ParseTokens(tokens) else old(entries))
        else if token != "" then [TokenEntry("default", token)]
        else old(entries)
    {
      if tokens != "" {
        var parsed := [];
        var segments := Split(tokens);
        for k := 0 to |segments|
          invariant parsed == FilterMap(ParsePair, segments[..k])
        {
          assert segments[..k + 1][..k] == segments[..k];
          var pair := TrimSpace(segments[k]);
          if pair == "" {
            continue;
          }
          var i := IndexOf(pair, ':');
          if i == |pair| || i == 0 || i + 1 == |pair| {
            continue;
          }
          parsed := parsed + [TokenEntry(pair[..i], pair[i + 1..])];
        }
        assert segments[..|segments|] == segments;
        if |parsed| > 0 {
          entries := parsed;
        }
        return;
      }
      if token != "" {
        entries := [TokenEntry("default", token)];
      }
    }

    /** The owner of the first entry with the candidate token. */
    method Lookup(candidate: string) returns (name: string, ok: bool)
      ensures ok <==> exists e :: e in entries && e.token == candidate
      ensures ok ==> exists i :: 0 <= i < |entries| && entries[i] == TokenEntry(name, candidate)
                              && forall j :: 0 <= j < i ==> entries[j].token != candidate
      ensures !ok ==> name == ""
    {
      for i := 0 to |entries|
        invariant forall j :: 0 <= j < i ==> entries[j].token != candidate
      {
        if entries[i].token == candidate {
          assert entries[i] in entries;
          return entries[i].name, true;
        }
      }
      return "", false;
    }

    predicate AuthRequired()
      reads this
    {
      |entries| > 0
    }

    method Clear()
      modifies this
      ensures entries == []
    {
      entries := [];
    }
  }

  // ----- which lists the format can carry

  /** An entry that can be written as `name:token` in a comma-separated list and read back. */
  predicate WellFormed(e: TokenEntry) {
    && e.name != "" && ':' !in e.name && ',' !in e.name && !IsSpace(e.name[0])
    && e.token != "" && ',' !in e.token && !IsSpace(e.token[|e.token| - 1])
  }

  /** Text without a colon, or with nothing but space before or after the first one. */
  ghost predicate Malformed(text: string) {
    ':' in text ==>
      exists i :: && 0 <= i < |text| && text[i] == ':' && ':' !in text[..i]
                  && (AllSpace(text[..i]) || AllSpace(text[i + 1..]))
  }

  /** What may stand between commas: text that gives no entry, or an entry with space around it. */
  datatype Segment = Ignored(text: string) | Pair(lead: string, entry: TokenEntry, trail: string)

  ghost predicate SegmentOk(g: Segment) {
    match g
    case Ignored(text) => ',' !in text && Malformed(text)
    case Pair(lead, e, trail) => AllSpace(lead) && WellFormed(e) && AllSpace(trail)
  }

  function SegmentText(g: Segment): string {
    match g
    case Ignored(text) => text
    case Pair(lead, e, trail) => lead + (e.name + ":" + e.token) + trail
  }

  function EntryOf(g: Segment): Option<TokenEntry> {
    match g case Ignored(_) => None case Pair(_, e, _) => Some(e)
  }

  function Join(texts: seq<string>): string {
    if texts == [] then "" else if |texts| == 1 then texts[0] else texts[0] + "," + Join(texts[1..])
  }

  lemma {:induction false} TrimLeftSpace(space: string, s: string)
    requires AllSpace(space) && (s == "" || !IsSpace(s[0]))
    ensures TrimLeft(space + s) == s
  {
    if space == "" {
      assert space + s == s;
    } else {
      assert (space + s)[1..] == space[1..] + s;
      TrimLeftSpace(space[1..], s);
    }
  }

  lemma {:induction false} TrimRightSpace(s: string, space: string)
    requires AllSpace(space) && (s == "" || !IsSpace(s[|s| - 1]))
    ensures TrimRight(s + space) == s
    decreases |space|
  {
    if space == "" {
      assert s + space == s;
    } else {
      assert (s + space)[..|s + space| - 1] == s + space[..|space| - 1];
      TrimRightSpace(s, space[..|space| - 1]);
    }
  }

  lemma {:induction false} IndexAfter(a: string, c: char, b: string)
    requires c !in a
    ensures IndexOf(a + [c] + b, c) == |a|
  {
    var s := a + [c] + b;
    assert s[|a|] == c;
    assert forall k :: 0 <= k < |a| ==> s[k] == a[k];
  }

  /** Trimming takes away the space on both sides, and only that. */
  lemma {:induction false} TrimLeftParts(s: string) returns (lead: string)
    ensures AllSpace(lead) && s == lead + TrimLeft(s) && (TrimLeft(s) != "" ==> !IsSpace(TrimLeft(s)[0]))
  {
    if s != "" && IsSpace(s[0]) {
      lead := TrimLeftParts(s[1..]);
      lead := [s[0]] + lead;
    } else {
      lead := "";
    }
  }

  lemma {:induction false} TrimRightParts(s: string) returns (trail: string)
    ensures AllSpace(trail) && s == TrimRight(s) + trail
    ensures TrimRight(s) != "" ==> !IsSpace(TrimRight(s)[|TrimRight(s)| - 1])
  {
    if s != "" && IsSpace(s[|s| - 1]) {
      trail := TrimRightParts(s[..|s| - 1]);
      assert s == s[..|s| - 1] + [s[|s| - 1]];
      trail := trail + [s[|s| - 1]];
    } else {
      trail := "";
    }
  }

  lemma TrimParts(s: string) returns (lead: string, trail: string)
    ensures AllSpace(lead) && AllSpace(trail) && s == lead + TrimSpace(s) + trail
    ensures var t := TrimSpace(s); t != "" ==> !IsSpace(t[0]) && !IsSpace(t[|t| - 1])
  {
    lead := TrimLeftParts(s);
    trail := TrimRightParts(TrimLeft(s));
    assert lead + TrimSpace(s) + trail == lead + (TrimSpace(s) + trail);
  }

  /** Around the first colon of a trimmed text, a side is empty exactly if the untrimmed side is nothing but space. */
  lemma Sides(lead: string, pair: string, trail: string, i: nat)
    requires AllSpace(lead) && AllSpace(trail) && i < |pair| && pair[i] == ':'
    requires !IsSpace(pair[0]) && !IsSpace(pair[|pair| - 1])
    ensures var text := lead + pair + trail;
            && |lead| + i < |text| && text[|lead| + i] == ':'
            && (AllSpace(text[..|lead| + i]) <==> pair[..i] == "")
            && (AllSpace(text[|lead| + i + 1..]) <==> pair[i + 1..] == "")
  {
    var text := lead + pair + trail;
    var before, after := text[..|lead| + i], text[|lead| + i + 1..];
    assert before == lead + pair[..i];
    assert after == pair[i + 1..] + trail;
    if i > 0 {
      assert before[|lead|] == pair[0];
    }
    if i + 1 < |pair| {
      assert after[|pair| - i - 2] == pair[|pair| - 1];
    }
  }

  lemma FirstColon(lead: string, pair: string, trail: string, i: nat)
    requires AllSpace(lead) && i < |pair| && pair[i] == ':' && ':' !in pair[..i]
    ensures ':' !in (lead + pair + trail)[..|lead| + i]
  {
    assert (lead + pair + trail)[..|lead| + i] == lead + pair[..i];
    assert !IsSpace(':');
  }

  lemma OnlyFirstColon(text: string, i: nat, j: nat)
    requires i < |text| && j < |text| && text[i] == ':' && text[j] == ':' && ':' !in text[..i] && ':' !in text[..j]
    ensures i == j
  {
  }

  lemma MalformedAt(text: string, i: nat)
    requires i < |text| && text[i] == ':' && ':' !in text[..i]
    ensures Malformed(text) <==> AllSpace(text[..i]) || AllSpace(text[i + 1..])
  {
    if Malformed(text) {
      var j :| 0 <= j < |text| && text[j] == ':' && ':' !in text[..j]
               && (AllSpace(text[..j]) || AllSpace(text[j + 1..]));
      OnlyFirstColon(text, i, j);
    }
  }

  /** A segment gives no entry exactly if it is malformed. */
  lemma IgnoredIff(text: string)
    ensures ParsePair(text) == None <==> Malformed(text)
  {
    var pair := TrimSpace(text);
    var lead, trail := TrimParts(text);
    var i := IndexOf(pair, ':');
    if i == |pair| {
      assert !IsSpace(':');
      assert ':' !in lead + pair + trail;
    } else {
      Sides(lead, pair, trail, i);
      FirstColon(lead, pair, trail, i);
      MalformedAt(text, |lead| + i);
    }
  }

  lemma ParseSegment(g: Segment)
    requires SegmentOk(g)
    ensures ParsePair(SegmentText(g)) == EntryOf(g)
  {
    match g
    case Ignored(text) => IgnoredIff(text);
    case Pair(lead, e, trail) =>
      var core := e.name + ":" + e.token;
      assert lead + core + trail == lead + (core + trail);
      assert core[0] == e.name[0] && core[|core| - 1] == e.token[|e.token| - 1];
      TrimLeftSpace(lead, core + trail);
      TrimRightSpace(core, trail);
      IndexAfter(e.name, ':', e.token);
      assert core[..|e.name|] == e.name && core[|e.name| + 1..] == e.token;
  }

  lemma SegmentHasNoComma(g: Segment)
    requires SegmentOk(g)
    ensures ',' !in SegmentText(g)
  {
    assert !IsSpace(',');
  }

  lemma IndexNowhere(s: string, c: char)
    requires c !in s
    ensures IndexOf(s, c) == |s|
  {
  }

  lemma {:induction false} SplitJoin(texts: seq<string>)
    requires texts != [] && forall k :: 0 <= k < |texts| ==> ',' !in texts[k]
    ensures Split(Join(texts)) == texts
  {
    if |texts| == 1 {
      IndexNowhere(texts[0], ',');
    } else {
      var rest := Join(texts[1..]);
      var s := texts[0] + "," + rest;
      IndexAfter(texts[0], ',', rest);
      assert s[..|texts[0]|] == texts[0] && s[|texts[0]| + 1..] == rest;
      SplitJoin(texts[1..]);
    }
  }

  lemma {:induction false} ParseSegments(segments: seq<Segment>)
    requires forall k :: 0 <= k < |segments| ==> SegmentOk(segments[k])
    ensures FilterMap(ParsePair, Map(SegmentText, segments)) == FilterMap(EntryOf, segments)
  {
    if segments != [] {
      var p, g := segments[..|segments| - 1], segments[|segments| - 1];
      assert Map(SegmentText, segments)[..|segments| - 1] == Map(SegmentText, p);
      ParseSegments(p);
      ParseSegment(g);
    }
  }

  /**
   Any list of well-formed entries, written `name:token` between commas with any space around entries and any
   malformed or blank segments in between, parses back to the same list.
   */
  lemma TokenListRoundTrip(segments: seq<Segment>)
    requires forall k :: 0 <= k < |segments| ==> SegmentOk(segments[k])
    ensures ParseTokens(Join(Map(SegmentText, segments))) == FilterMap(EntryOf, segments)
  {
    var texts := Map(SegmentText, segments);
    if segments != [] {
      forall k | 0 <= k < |texts| ensures ',' !in texts[k] {
        SegmentHasNoComma(segments[k]);
      }
      SplitJoin(texts);
      ParseSegments(segments);
    } else {
      assert Split("") == [""];
      assert [""][..0] == [];
      ParseSegment(Ignored(""));
    }
  }

  // ----- every parsed entry is well-formed, so parsing normalises

  lemma {:induction false} TrimLeftResult(s: string)
    ensures var t := TrimLeft(s);
            (t != "" ==> !IsSpace(t[0])) && (forall c :: c in t ==> c in s)
  {
    if s != "" && IsSpace(s[0]) {
      TrimLeftResult(s[1..]);
    }
  }

  lemma {:induction false} TrimRightResult(s: string)
    ensures var t := TrimRight(s);
            (t != "" ==> !IsSpace(t[|t| - 1])) && t <= s
  {
    if s != "" && IsSpace(s[|s| - 1]) {
      TrimRightResult(s[..|s| - 1]);
    }
  }

  lemma ParsedPairWellFormed(segment: string)
    requires ',' !in segment && ParsePair(segment).Some?
    ensures WellFormed(ParsePair(segment).value)
  {
    var left := TrimLeft(segment);
    var pair := TrimSpace(segment);
    TrimLeftResult(segment);
    TrimRightResult(left);
    assert forall k :: 0 <= k < |pair| ==> pair[k] == left[k];
    assert ',' !in pair;
    var e := ParsePair(segment).value;
    assert pair == e.name + ":" + e.token;
    assert e.name[0] == pair[0] && e.token[|e.token| - 1] == pair[|pair| - 1];
  }

  lemma {:induction false} ParsedWellFormed(segments: seq<string>)
    requires forall k :: 0 <= k < |segments| ==> ',' !in segments[k]
    ensures forall e :: e in FilterMap(ParsePair, segments) ==> WellFormed(e)
  {
    if segments != [] {
      ParsedWellFormed(segments[..|segments| - 1]);
      if ParsePair(segments[|segments| - 1]).Some? {
        ParsedPairWellFormed(segments[|segments| - 1]);
      }
    }
  }

  function Plain(e: TokenEntry): Segment {
    Pair("", e, "")
  }

  lemma {:induction false} PlainEntries(es: seq<TokenEntry>)
    ensures FilterMap(EntryOf, Map(Plain, es)) == es
  {
    if es != [] {
      assert Map(Plain, es)[..|es| - 1] == Map(Plain, es[..|es| - 1]);
      PlainEntries(es[..|es| - 1]);
    }
  }

  /** Parsed entries are well-formed, and writing them plainly and parsing again changes nothing. */
  lemma ParsingNormalises(v: string)
    ensures forall e :: e in ParseTokens(v) ==> WellFormed(e)
    ensures ParseTokens(Join(Map(SegmentText, Map(Plain, ParseTokens(v))))) == ParseTokens(v)
  {
    var es := ParseTokens(v);
    ParsedWellFormed(Split(v));
    forall k | 0 <= k < |es| ensures SegmentOk(Map(Plain, es)[k]) {
      assert es[k] in es;
    }
    TokenListRoundTrip(Map(Plain, es));
    PlainEntries(es);
  }
}
