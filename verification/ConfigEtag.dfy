/** The validator of a store's configuration and the `If-None-Match` comparison. */
module ConfigEtags {
  import opened Common

  /** A store's id, as `char(36)` holds it: hexadecimal digits and hyphens. */
  predicate IsStoreId(id: string) {
    forall i :: 0 <= i < |id| ==> IsDigit(id[i]) || 'a' <= id[i] <= 'f' || id[i] == '-'
  }

  function ConfigEtag(storeId: string, version: nat): string {
    "W/\"" + storeId + "-" + Decimal(version) + "\""
  }

  /** `value.trim().replace(/^W\//, '')`. */
  function Normalise(value: string): string {
    var trimmed := TrimEnd(TrimStart(value));
    if "W/" <= trimmed then trimmed[2..] else trimmed
  }

  function Split(s: string, separator: char): (r: seq<string>)
    ensures r != []
  {
    if s == "" then [""]
    else
      var rest := Split(s[1..], separator);
      if s[0] == separator then [""] + rest else [[s[0]] + rest[0]] + rest[1..]
  }

  predicate Accepts(candidate: string, current: string) {
    Normalise(candidate) == "*" || Normalise(candidate) == Normalise(current)
  }

  predicate AnyAccepted(candidates: seq<string>, current: string) {
    exists i :: 0 <= i < |candidates| && Accepts(candidates[i], current)
  }

  predicate MatchesEtag(header: Option<string>, current: string) {
    header.Some? && header.value != "" && AnyAccepted(Split(header.value, ','), current)
  }

  // ---------------------------------------------------------------- one validator, one document

  lemma EtagInjective(s: string, v: nat, t: string, w: nat)
    requires ConfigEtag(s, v) == ConfigEtag(t, w)
    ensures s == t && v == w
  {
    var a, b := ConfigEtag(s, v), ConfigEtag(t, w);
    assert a[3..|a| - 1] == s + ['-'] + Decimal(v) && b[3..|b| - 1] == t + ['-'] + Decimal(w);
    SplitAtLastSeparator(s, t, '-', Decimal(v), Decimal(w));
    DecimalInjective(v, w);
  }

  lemma NormaliseEtag(s: string, v: nat)
    ensures Normalise(ConfigEtag(s, v)) == ConfigEtag(s, v)[2..]
  {
    var e := ConfigEtag(s, v);
    assert e[0] == 'W' && e[1] == '/' && e[|e| - 1] == '"';
    assert TrimStart(e) == e && TrimEnd(e) == e;
  }

  lemma NormalInjective(s: string, v: nat, t: string, w: nat)
    requires Normalise(ConfigEtag(s, v)) == Normalise(ConfigEtag(t, w))
    ensures s == t && v == w
  {
    NormaliseEtag(s, v);
    NormaliseEtag(t, w);
    var a, b := ConfigEtag(s, v), ConfigEtag(t, w);
    assert a == ['W', '/'] + a[2..] && b == ['W', '/'] + b[2..];
    EtagInjective(s, v, t, w);
  }

  // ---------------------------------------------------------------- the comparison

  lemma {:induction false} SplitNone(s: string, c: char)
    requires c !in s
    ensures Split(s, c) == [s]
  {
    if s != "" {
      SplitNone(s[1..], c);
      assert [s[0]] + s[1..] == s;
    }
  }

  lemma {:induction false} SplitFirst(s: string, c: char, rest: string)
    requires c !in s
    ensures Split(s + [c] + rest, c) == [s] + Split(rest, c)
  {
    var whole := s + [c] + rest;
    if s == "" {
      assert whole[1..] == rest;
    } else {
      SplitFirst(s[1..], c, rest);
      assert whole[1..] == s[1..] + [c] + rest && [s[0]] + s[1..] == s;
    }
  }

  /** A validator as a client may write it back: with `W/` or without, and with white space around it. */
  datatype Presented = Presented(storeId: string, version: nat, weak: bool, before: string, after: string) {
    predicate WellFormed() {
      IsStoreId(storeId) && (forall c :: c in before ==> IsSpace(c)) && (forall c :: c in after ==> IsSpace(c))
    }

    function Core(): string {
      var etag := ConfigEtag(storeId, version);
      if weak then etag else etag[2..]
    }

    function Written(): string { before + Core() + after }
  }

  lemma {:induction false} TrimmedStart(blank: string, s: string)
    requires forall c :: c in blank ==> IsSpace(c)
    ensures TrimStart(blank + s) == TrimStart(s)
  {
    if blank == "" {
      assert blank + s == s;
    } else {
      assert (blank + s)[1..] == blank[1..] + s;
      TrimmedStart(blank[1..], s);
    }
  }

  lemma {:induction false} TrimmedEnd(s: string, blank: string)
    requires forall c :: c in blank ==> IsSpace(c)
    ensures TrimEnd(s + blank) == TrimEnd(s)
    decreases |blank|
  {
    if blank == "" {
      assert s + blank == s;
    } else {
      assert (s + blank)[..|s + blank| - 1] == s + blank[..|blank| - 1];
      TrimmedEnd(s, blank[..|blank| - 1]);
    }
  }

  /** Neither the white space nor the `W/` tells two spellings of a validator apart. */
  lemma NormaliseWritten(p: Presented)
    requires p.WellFormed()
    ensures Normalise(p.Written()) == Normalise(ConfigEtag(p.storeId, p.version))
  {
    NormaliseEtag(p.storeId, p.version);
    var etag, core := ConfigEtag(p.storeId, p.version), p.Core();
    assert etag[0] == 'W' && etag[1] == '/' && etag[2] == '"' && etag[|etag| - 1] == '"';
    assert core != "" && !IsSpace(core[0]) && !IsSpace(core[|core| - 1]);
    CoreTrimmed(p.before, core, p.after);
    assert etag == ['W', '/'] + etag[2..];
    assert !p.weak ==> core[0] != 'W';
  }

  lemma CoreTrimmed(before: string, core: string, after: string)
    requires (forall c :: c in before ==> IsSpace(c)) && (forall c :: c in after ==> IsSpace(c))
    requires core != "" && !IsSpace(core[0]) && !IsSpace(core[|core| - 1])
    ensures TrimEnd(TrimStart(before + core + after)) == core
  {
    assert before + core + after == before + (core + after);
    TrimmedStart(before, core + after);
    assert TrimStart(core + after) == core + after;
    TrimmedEnd(core, after);
  }

  lemma EtagHasNoComma(s: string, v: nat)
    requires IsStoreId(s)
    ensures ',' !in ConfigEtag(s, v) && ',' !in ConfigEtag(s, v)[2..] && |ConfigEtag(s, v)| > 2
  {
  }

  lemma WrittenHasNoComma(p: Presented)
    requires p.WellFormed()
    ensures ',' !in p.Written() && p.Written() != ""
  {
    hide ConfigEtag, IsStoreId;
    EtagHasNoComma(p.storeId, p.version);
    assert ',' !in p.before && ',' !in p.Core() && ',' !in p.after && |p.Core()| > 0;
    hide Presented.Core, IsSpace;
    assert p.Written() == p.before + p.Core() + p.after;
  }

  /** The validators a client lists, as a header. */
  function Listed(held: seq<Presented>): string {
    if held == [] then ""
    else if |held| == 1 then held[0].Written()
    else held[0].Written() + [','] + Listed(held[1..])
  }

  function WrittenOut(held: seq<Presented>): (parts: seq<string>)
    ensures |parts| == |held|
  {
    seq(|held|, i requires 0 <= i < |held| => held[i].Written())
  }

  lemma {:induction false} SplitListed(held: seq<Presented>)
    requires held != [] && forall i :: 0 <= i < |held| ==> held[i].WellFormed()
    ensures Split(Listed(held), ',') == WrittenOut(held) && Listed(held) != ""
  {
    hide Split, Presented.Written, Presented.WellFormed;
    WrittenHasNoComma(held[0]);
    if |held| == 1 {
      SplitNone(held[0].Written(), ',');
    } else {
      SplitListed(held[1..]);
      SplitFirst(held[0].Written(), ',', Listed(held[1..]));
      assert WrittenOut(held) == [held[0].Written()] + WrittenOut(held[1..]);
    }
  }

  lemma PartDecides(p: Presented, storeId: string, version: nat)
    requires p.WellFormed()
    ensures Accepts(p.Written(), ConfigEtag(storeId, version)) <==> (p.storeId, p.version) == (storeId, version)
  {
    NormaliseWritten(p);
    NormaliseEtag(p.storeId, p.version);
    if Normalise(p.Written()) == Normalise(ConfigEtag(storeId, version)) {
      NormalInjective(p.storeId, p.version, storeId, version);
    }
    assert Normalise(p.Written())[0] == '"';
  }

  ghost predicate Names(held: seq<Presented>, storeId: string, version: nat) {
    exists i :: 0 <= i < |held| && held[i].storeId == storeId && held[i].version == version
  }

  lemma PartsDecide(held: seq<Presented>, storeId: string, version: nat)
    requires forall i :: 0 <= i < |held| ==> held[i].WellFormed()
    ensures AnyAccepted(WrittenOut(held), ConfigEtag(storeId, version)) <==> Names(held, storeId, version)
  {
    hide ConfigEtag, Normalise, Accepts, Presented.Written, Presented.WellFormed;
    forall i | 0 <= i < |held|
      ensures Accepts(WrittenOut(held)[i], ConfigEtag(storeId, version))
              <==> held[i].storeId == storeId && held[i].version == version
    {
      PartDecides(held[i], storeId, version);
    }
  }

  lemma NoHeaderNoMatch(current: string)
    ensures !MatchesEtag(None, current) && !MatchesEtag(Some(""), current)
  {
  }

  lemma HeaderMatches(header: string, current: string)
    requires header != ""
    ensures MatchesEtag(Some(header), current) <==> AnyAccepted(Split(header, ','), current)
  {
  }

  /**
   The weak comparison of section 8.8.3.2 of RFC 9110 decides exactly whether the client listed
   this store at this version, in whichever form it wrote each validator; a missing or empty header
   never matches.
   */
  lemma {:induction false} MatchesExactly(held: seq<Presented>, storeId: string, version: nat)
    requires forall i :: 0 <= i < |held| ==> held[i].WellFormed()
    ensures MatchesEtag(Some(Listed(held)), ConfigEtag(storeId, version)) <==> Names(held, storeId, version)
    ensures !MatchesEtag(None, ConfigEtag(storeId, version))
  {
    NoHeaderNoMatch(ConfigEtag(storeId, version));
    hide ConfigEtag, MatchesEtag, Split, Presented.WellFormed, WrittenOut, AnyAccepted, Presented.Written;
    if held != [] {
      SplitListed(held);
      HeaderMatches(Listed(held), ConfigEtag(storeId, version));
      PartsDecide(held, storeId, version);
    }
  }

  /** `*` asks for any representation and matches every store that exists. */
  lemma StarMatches(before: string, after: string, current: string)
    requires (forall c :: c in before ==> IsSpace(c)) && (forall c :: c in after ==> IsSpace(c))
    ensures MatchesEtag(Some(before + "*" + after), current)
  {
    var header := before + "*" + after;
    CoreTrimmed(before, "*", after);
    SplitNone(header, ',');
    assert Normalise(Split(header, ',')[0]) == "*";
  }
}
