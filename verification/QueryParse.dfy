/** Reading the query back: split at '&', each segment at its first '=', percent-decode. */
module QueryParse {
  import opened Common
  import opened QueryCodec
  import opened QueryBuilder

  predicate Without(s: string, c: char) {
    forall i :: 0 <= i < |s| ==> s[i] != c
  }

  /** The position of the first `c`, or the length. */
  function IndexOf(s: string, c: char): (i: nat)
    ensures i <= |s| && Without(s[..i], c) && (i < |s| ==> s[i] == c)
  {
    if s == [] || s[0] == c then 0 else 1 + IndexOf(s[1..], c)
  }

  function SplitAmp(s: string): seq<string>
    decreases |s|
  {
    var i := IndexOf(s, '&');
    if i == |s| then [s] else [s[..i]] + SplitAmp(s[i + 1..])
  }

  /** A segment without '=' or with a malformed escape is refused. */
  function ReadSegment(s: string): Option<Param> {
    var i := IndexOf(s, '=');
    if i == |s| then None
    else match Unescaped(s[i + 1..])
      case None => None
      case Some(v) => Some(Param(s[..i], v))
  }

  function ReadAll(segments: seq<string>): Option<seq<Param>> {
    if segments == [] then Some([])
    else
      var p, rest := ReadSegment(segments[0]), ReadAll(segments[1..]);
      if p.None? || rest.None? then None else Some([p.value] + rest.value)
  }

  function Parse(s: string): Option<seq<Param>> {
    ReadAll(SplitAmp(s))
  }

  // ---------------------------------------------------------------- escaped text has no separators

  lemma CharWithout(c: char)
    ensures Without(EscapedChar(c), '&') && Without(EscapedChar(c), '=')
  {
    if !Plain(c) {
      HexBack(c as int % 256 / 16);
      HexBack(c as int % 16);
    }
  }

  lemma {:induction false} EscapedWithout(s: string)
    ensures Without(Escaped(s), '&') && Without(Escaped(s), '=')
    decreases |s|
  {
    if s != [] {
      CharWithout(s[0]);
      EscapedWithout(s[1..]);
    }
  }

  lemma {:induction false} IndexAfter(a: string, c: char, b: string)
    requires Without(a, c)
    ensures IndexOf(a + [c] + b, c) == |a|
    ensures IndexOf(a, c) == |a|
    decreases |a|
  {
    if a != [] {
      assert (a + [c] + b)[1..] == a[1..] + [c] + b;
      IndexAfter(a[1..], c, b);
    }
  }

  // ---------------------------------------------------------------- splitting and reading back

  /** A key is not empty and holds no separator. */
  predicate GoodKey(k: string) {
    k != [] && Without(k, '&') && Without(k, '=')
  }

  predicate GoodKeys(ps: seq<Param>) {
    forall i :: 0 <= i < |ps| ==> GoodKey(ps[i].key)
  }

  lemma SegmentWithout(p: Param)
    requires GoodKey(p.key)
    ensures Without(Segment(p), '&')
  {
    EscapedWithout(p.value);
  }

  function Segments(ps: seq<Param>): seq<string> {
    if ps == [] then [] else [Segment(ps[0])] + Segments(ps[1..])
  }

  lemma SplitFirst(s: string, rest: string)
    requires Without(s, '&')
    ensures SplitAmp(s + ['&'] + rest) == [s] + SplitAmp(rest)
    ensures SplitAmp(s) == [s]
  {
    var t := s + ['&'] + rest;
    IndexAfter(s, '&', rest);
    assert t[..|s|] == s && t[|s| + 1..] == rest;
  }

  lemma QueryCons(ps: seq<Param>)
    requires ps != []
    ensures Query(ps) == if |ps| == 1 then Segment(ps[0]) else Segment(ps[0]) + ['&'] + Query(ps[1..])
  {
    var rest := ps[1..];
    if |ps| == 1 {
      assert Tail(rest) == [];
    } else {
      assert Tail(rest) == ['&'] + Query(rest);
    }
  }

  lemma {:induction false} SplitsBack(ps: seq<Param>)
    requires ps != [] && GoodKeys(ps)
    ensures SplitAmp(Query(ps)) == Segments(ps)
    decreases |ps|
  {
    SegmentWithout(ps[0]);
    QueryCons(ps);
    SplitFirst(Segment(ps[0]), if |ps| == 1 then [] else Query(ps[1..]));
    if |ps| > 1 {
      SplitsBack(ps[1..]);
    } else {
      assert Segments(ps[1..]) == [];
    }
  }

  lemma ReadsBack(p: Param)
    requires GoodKey(p.key)
    ensures ReadSegment(Segment(p)) == match Unescaped(Escaped(p.value)) case None => None case Some(v) => Some(Param(p.key, v))
  {
    IndexAfter(p.key, '=', Escaped(p.value));
    assert Segment(p)[|p.key| + 1..] == Escaped(p.value);
    assert Segment(p)[..|p.key|] == p.key;
  }

  predicate BytesOnly(ps: seq<Param>) {
    forall i :: 0 <= i < |ps| ==> IsBytes(ps[i].value)
  }

  predicate AllDecodable(ps: seq<Param>) {
    forall i :: 0 <= i < |ps| ==> Decodable(ps[i].value)
  }

  lemma {:induction false} ReadsAllBack(ps: seq<Param>)
    requires GoodKeys(ps) && BytesOnly(ps)
    ensures ReadAll(Segments(ps)) == Some(ps) <==> AllDecodable(ps)
    decreases |ps|
  {
    hide Segment, ReadSegment, Unescaped, Escaped, Decodable, GoodKey;
    if ps != [] {
      var segments := Segments(ps);
      assert segments[1..] == Segments(ps[1..]);
      ReadsBack(ps[0]);
      RoundTripExact(ps[0].value);
      ReadsAllBack(ps[1..]);
      assert ps == [ps[0]] + ps[1..];
      assert AllDecodable(ps) <==> Decodable(ps[0].value) && AllDecodable(ps[1..]);
    }
  }

  // ---------------------------------------------------------------- the names constructPath uses

  /** A good key that is not the model's. */
  predicate Other(k: string) {
    GoodKey(k) && k != "model"
  }

  predicate Others(ps: seq<Param>) {
    forall i :: 0 <= i < |ps| ==> Other(ps[i].key)
  }

  lemma FormattingNames()
    ensures Other("version") && Other("language") && Other("multichannel") && Other("channels")
    ensures Other("smart_format") && Other("no_delay") && Other("punctuate") && Other("profanity_filter")
  {
  }

  lemma AnalysisNames()
    ensures Other("redact") && Other("diarize") && Other("diarize_version")
    ensures Other("ner") && Other("alternatives") && Other("numerals")
  {
  }

  lemma HintNames()
    ensures Other("search") && Other("keywords") && Other("keyterm") && Other("replace")
  {
  }

  lemma DeliveryNames()
    ensures Other("tag") && Other("interim_results") && Other("endpointing") && Other("utterance_end_ms")
    ensures Other("vad_turnoff") && Other("encoding") && Other("sample_rate")
  {
  }

  lemma HeadNames()
    ensures Other("tier") && GoodKey("model")
  {
  }

  lemma OthersVar(k: string, v: Option<string>)
    requires Other(k)
    ensures Others(Var(k, v))
  {
  }

  lemma OthersFlag(k: string, on: bool)
    requires Other(k)
    ensures Others(Flag(k, on))
  {
  }

  lemma {:induction false} OthersEach(k: string, phrases: seq<string>)
    requires Other(k)
    ensures Others(Each(k, phrases))
    decreases |phrases|
  {
    if phrases != [] {
      OthersEach(k, phrases[1..]);
    }
  }

  lemma OthersPair(a: Param, b: Param)
    requires Other(a.key) && Other(b.key)
    ensures Others([a, b]) && Others([a])
  {
  }

  lemma OthersAppend(a: seq<Param>, b: seq<Param>)
    requires Others(a) && Others(b)
    ensures Others(a + b)
  {
  }

  lemma OthersJoin(a: seq<Param>, b: seq<Param>, c: seq<Param>, d: seq<Param>, e: seq<Param>, f: seq<Param>)
    requires Others(a) && Others(b) && Others(c) && Others(d) && Others(e) && Others(f)
    ensures Others(a + b + c + d) && Others(a + b + c + d + e + f)
  {
  }

  lemma FormattingOthers(c: Config)
    ensures Others(Formatting(c))
  {
    hide Other, Others, Var, Flag;
    FormattingNames();
    OthersVar("version", c.version);
    OthersPair(Param("language", c.language), Param("language", c.language));
    OthersPair(Param("multichannel", "true"), Param("channels", "2"));
    OthersPair(Param("smart_format", "true"), Param("no_delay", "true"));
    OthersFlag("punctuate", c.punctuate);
    OthersFlag("profanity_filter", c.profanityFilter);
    OthersNone();
    OthersJoin(Var("version", c.version), [Param("language", c.language)],
      if c.channels == 2 then [Param("multichannel", "true"), Param("channels", "2")] else [],
      if c.smartFormat then [Param("smart_format", "true"), Param("no_delay", "true")] else [],
      Flag("punctuate", c.punctuate), Flag("profanity_filter", c.profanityFilter));
  }

  lemma OthersNone()
    ensures Others([])
  {
  }

  lemma AnalysisOthers(c: Config)
    ensures Others(Analysis(c))
  {
    hide Other, Others, Var, Flag;
    AnalysisNames();
    var version := if c.diarize then c.diarizeVersion else None;
    OthersVar("redact", c.redact);
    OthersFlag("diarize", c.diarize);
    OthersVar("diarize_version", version);
    OthersFlag("ner", c.ner);
    OthersVar("alternatives", c.alternatives);
    OthersFlag("numerals", c.numerals);
    OthersJoin(Var("redact", c.redact), Flag("diarize", c.diarize), Var("diarize_version", version), Flag("ner", c.ner),
      Var("alternatives", c.alternatives), Flag("numerals", c.numerals));
  }

  lemma HintsOthers(c: Config)
    ensures Others(Hints(c))
  {
    hide Other, Others, Each;
    HintNames();
    OthersEach("search", c.search);
    OthersEach("keywords", c.keywords);
    OthersEach("keyterm", c.keyterms);
    OthersEach("replace", c.replacements);
    OthersNone();
    OthersJoin(Each("search", c.search), Each("keywords", c.keywords), Each("keyterm", c.keyterms),
      Each("replace", c.replacements), [], []);
  }

  lemma DeliveryOthers(c: Config)
    ensures Others(Delivery(c))
  {
    hide Other, Others, Var, Flag;
    DeliveryNames();
    OthersVar("tag", c.tag);
    OthersFlag("interim_results", c.interim);
    OthersVar("endpointing", c.endpointing);
    OthersVar("utterance_end_ms", c.utteranceEnd);
    OthersVar("vad_turnoff", c.vadTurnoff);
    OthersPair(Param("encoding", "linear16"), Param("sample_rate", "8000"));
    OthersJoin(Var("tag", c.tag), Flag("interim_results", c.interim), Var("endpointing", c.endpointing),
      Var("utterance_end_ms", c.utteranceEnd), Var("vad_turnoff", c.vadTurnoff),
      [Param("encoding", "linear16"), Param("sample_rate", "8000")]);
  }

  /** Everything after the head. */
  function Body(c: Config): seq<Param> {
    Formatting(c) + Analysis(c) + Hints(c) + Delivery(c)
  }

  lemma BodyOthers(c: Config)
    ensures Others(Body(c)) && Params(c) == Head(c) + Body(c)
  {
    hide Other, Others, Formatting, Analysis, Hints, Delivery, Head;
    FormattingOthers(c);
    AnalysisOthers(c);
    HintsOthers(c);
    DeliveryOthers(c);
    OthersNone();
    OthersJoin(Formatting(c), Analysis(c), Hints(c), Delivery(c), [], []);
  }

  /** The head is a tier, a model, or a tier and a model. */
  predicate HeadShape(h: seq<Param>) {
    || (|h| == 1 && (h[0].key == "tier" || h[0].key == "model"))
    || (|h| == 2 && h[0].key == "tier" && h[1].key == "model")
  }

  lemma HeadHasShape(c: Config)
    ensures HeadShape(Head(c))
  {
    hide Defaults;
  }

  /** The model key occurs at most once. */
  predicate ModelOnce(ps: seq<Param>) {
    forall i, j :: 0 <= i < j < |ps| ==> !(ps[i].key == "model" && ps[j].key == "model")
  }

  lemma HeadKeys(h: seq<Param>)
    requires HeadShape(h)
    ensures GoodKeys(h) && ModelOnce(h)
  {
    hide GoodKey, Other;
    HeadNames();
    TierIsNotModel();
    TierIsGood();
  }

  lemma TierIsNotModel()
    ensures "tier" != "model"
  {
  }

  lemma TierIsGood()
    ensures GoodKey("tier")
  {
  }

  lemma OthersAreGood(ps: seq<Param>)
    requires Others(ps)
    ensures GoodKeys(ps) && forall i :: 0 <= i < |ps| ==> ps[i].key != "model"
  {
  }

  lemma KeysOf(h: seq<Param>, b: seq<Param>)
    requires HeadShape(h) && Others(b)
    ensures GoodKeys(h + b) && ModelOnce(h + b)
  {
    hide GoodKey, Other, Others, HeadShape;
    HeadKeys(h);
    OthersAreGood(b);
  }

  /** For every combination of channel variables the query has no empty segment, no empty
      key, and at most one model parameter. */
  lemma OneModel(c: Config)
    ensures Params(c) != [] && GoodKeys(Params(c)) && ModelOnce(Params(c))
  {
    hide Head, Body, GoodKey, Others, HeadShape, Params;
    BodyOthers(c);
    HeadHasShape(c);
    KeysOf(Head(c), Body(c));
  }

  /** An explicit custom model wins over the generic one; with neither the language decides,
      unless a tier was chosen. */
  function ChosenModel(c: Config): Option<string> {
    if c.customModel.Some? then c.customModel
    else if c.model.Some? then c.model
    else if c.tier.Some? then None
    else Some(Defaults(c.language).1)
  }

  lemma HeadModel(c: Config, v: string)
    ensures Param("model", v) in Head(c) <==> ChosenModel(c) == Some(v)
  {
    hide Defaults;
    TierIsNotModel();
    var h := Head(c);
    var m := ChosenModel(c);
    if c.tier.None? && c.model.None? && c.customModel.None? {
      assert h[1] == Param("model", Defaults(c.language).1);
    } else {
      assert h == Var("tier", c.tier) + Var("model", m);
      if m.Some? { assert h[|h| - 1] == Param("model", m.value); }
    }
  }

  /** The model that is sent, if any, and no other. */
  lemma ModelSent(c: Config, v: string)
    ensures Param("model", v) in Params(c) <==> ChosenModel(c) == Some(v)
  {
    hide Head, Body, Params, Others, ChosenModel, GoodKeys;
    BodyOthers(c);
    OthersAreGood(Body(c));
    HeadModel(c, v);
  }

  /** Splitting the query at '&' and '=' and percent-decoding gives back the intended list,
      in order, if and only if no value in it holds a byte below 0x10. */
  lemma QueryRoundTrip(c: Config)
    requires BytesOnly(Params(c))
    ensures Parse(Query(Params(c))) == Some(Params(c)) <==> AllDecodable(Params(c))
  {
    hide Params, Query, GoodKeys, SplitAmp, Segments, ReadAll, BytesOnly, AllDecodable;
    OneModel(c);
    SplitsBack(Params(c));
    ReadsAllBack(Params(c));
  }
}
