/** The request path mod_deepgram_transcribe builds from channel variables, and the
    key/value list a server reads back from it. */
module QueryBuilder {
  import opened Common
  import opened QueryCodec

  datatype Param = Param(key: string, value: string)

  /** The channel variables read by constructPath, and its arguments. The comma-separated
      variables are given as their phrases. */
  datatype Config = Config(
    tier: Option<string>, model: Option<string>, customModel: Option<string>, version: Option<string>, language: string,
    channels: nat, smartFormat: bool, punctuate: bool, profanityFilter: bool, redact: Option<string>,
    diarize: bool, diarizeVersion: Option<string>, ner: bool, alternatives: Option<string>, numerals: bool,
    search: seq<string>, keywords: seq<string>, keyterms: seq<string>, replacements: seq<string>, tag: Option<string>, interim: bool,
    endpointing: Option<string>, utteranceEnd: Option<string>, vadTurnoff: Option<string>)

  /** The default tier and model by language; the fallback is the most widely supported pair. */
  function Defaults(language: string): (string, string) {
    if language in ["en", "en-US"] then ("nova", "phonecall")
    else if language in ["en-AU", "en-GB", "en-IN", "en-NZ", "es", "es-419"] then ("nova", "general")
    else if language in ["da", "nl", "fr", "de", "hi", "ja", "ko", "no", "pl", "pt", "pt-BR", "pt-PT", "sv", "ta"]
    then ("enhanced", "general")
    else ("base", "general")
  }

  // ---------------------------------------------------------------- the intended list

  function Var(key: string, v: Option<string>): seq<Param> {
    if v.Some? then [Param(key, v.value)] else []
  }

  function Flag(key: string, on: bool): seq<Param> {
    if on then [Param(key, "true")] else []
  }

  function Each(key: string, phrases: seq<string>): seq<Param> {
    if phrases == [] then [] else [Param(key, phrases[0])] + Each(key, phrases[1..])
  }

  /** An explicit custom model overrides the generic one; with nothing explicit the
      language decides. */
  function Head(c: Config): (ps: seq<Param>)
    ensures ps != []
  {
    if c.tier.None? && c.model.None? && c.customModel.None? then
      [Param("tier", Defaults(c.language).0), Param("model", Defaults(c.language).1)]
    else Var("tier", c.tier) + Var("model", if c.customModel.Some? then c.customModel else c.model)
  }

  function Formatting(c: Config): seq<Param> {
    Var("version", c.version) + [Param("language", c.language)]
    + (if c.channels == 2 then [Param("multichannel", "true"), Param("channels", "2")] else [])
    + (if c.smartFormat then [Param("smart_format", "true"), Param("no_delay", "true")] else [])
    + Flag("punctuate", c.punctuate) + Flag("profanity_filter", c.profanityFilter)
  }

  function Analysis(c: Config): seq<Param> {
    Var("redact", c.redact) + Flag("diarize", c.diarize)
    + Var("diarize_version", if c.diarize then c.diarizeVersion else None)
    + Flag("ner", c.ner) + Var("alternatives", c.alternatives) + Flag("numerals", c.numerals)
  }

  function Hints(c: Config): seq<Param> {
    Each("search", c.search) + Each("keywords", c.keywords) + Each("keyterm", c.keyterms)
    + Each("replace", c.replacements)
  }

  function Delivery(c: Config): seq<Param> {
    Var("tag", c.tag) + Flag("interim_results", c.interim) + Var("endpointing", c.endpointing)
    + Var("utterance_end_ms", c.utteranceEnd) + Var("vad_turnoff", c.vadTurnoff)
    + [Param("encoding", "linear16"), Param("sample_rate", "8000")]
  }

  function Params(c: Config): seq<Param> {
    Head(c) + Formatting(c) + Analysis(c) + Hints(c) + Delivery(c)
  }

  // ---------------------------------------------------------------- how it is written

  function Segment(p: Param): string {
    p.key + ['='] + Escaped(p.value)
  }

  /** Every parameter after the first brings its own separator. */
  function Tail(ps: seq<Param>): string {
    if ps == [] then [] else ['&'] + Segment(ps[0]) + Tail(ps[1..])
  }

  function Query(ps: seq<Param>): string {
    if ps == [] then [] else Segment(ps[0]) + Tail(ps[1..])
  }

  lemma {:induction false} TailAppend(a: seq<Param>, b: seq<Param>)
    ensures Tail(a + b) == Tail(a) + Tail(b)
    decreases |a|
  {
    if a == [] {
      assert a + b == b;
    } else {
      assert (a + b)[1..] == a[1..] + b;
      TailAppend(a[1..], b);
    }
  }

  lemma TailOne(p: Param)
    ensures Tail([p]) == ['&'] + Segment(p)
  {
    assert [p][1..] == [];
  }

  lemma QueryAppend(a: seq<Param>, b: seq<Param>)
    requires a != []
    ensures Query(a + b) == Query(a) + Tail(b)
  {
    assert (a + b)[1..] == a[1..] + b;
    TailAppend(a[1..], b);
  }

  predicate AllPlain(s: string) {
    forall i :: 0 <= i < |s| ==> Plain(s[i])
  }

  lemma {:induction false} PlainIsItself(s: string)
    requires AllPlain(s)
    ensures Escaped(s) == s
    decreases |s|
  {
    if s != [] {
      PlainIsItself(s[1..]);
      assert [s[0]] + s[1..] == s;
    }
  }

  // ---------------------------------------------------------------- the stream

  class PathBuilder {
    var oss: string
    ghost const PREFIX: string := "/v1/listen?"

    constructor ()
      ensures oss == PREFIX
    {
      oss := "/v1/listen?";
    }

    /** oss << "&key=" << encodeURIComponent(value) */
    method Append(key: string, value: string)
      modifies this
      ensures oss == old(oss) + Tail([Param(key, value)])
    {
      var e := EncodeURIComponent(value);
      TailOne(Param(key, value));
      oss := oss + ['&'] + key + ['='] + e;
    }

    /** oss << "&key=value", with a value that needs no encoding. */
    method AppendPlain(key: string, value: string)
      requires AllPlain(value)
      modifies this
      ensures oss == old(oss) + Tail([Param(key, value)])
    {
      PlainIsItself(value);
      TailOne(Param(key, value));
      oss := oss + ['&'] + key + ['='] + value;
    }

    method AppendVar(key: string, v: Option<string>)
      modifies this
      ensures oss == old(oss) + Tail(Var(key, v))
    {
      if v.Some? {
        Append(key, v.value);
      }
    }

    method AppendFlag(key: string, on: bool)
      modifies this
      ensures oss == old(oss) + Tail(Flag(key, on))
    {
      if on {
        AppendPlain(key, "true");
      }
    }

    method AppendEach(key: string, phrases: seq<string>)
      modifies this
      ensures oss == old(oss) + Tail(Each(key, phrases))
    {
      var i := 0;
      EachNone(key, phrases);
      hide Tail, Each, Segment, Escaped;
      while i < |phrases|
        invariant i <= |phrases| && oss == old(oss) + Tail(Each(key, phrases[..i]))
      {
        ghost var before := Tail(Each(key, phrases[..i]));
        Append(key, phrases[i]);
        EachSnoc(key, phrases, i);
        assert oss == old(oss) + (before + Tail([Param(key, phrases[i])]));
        i := i + 1;
      }
      assert phrases[..i] == phrases;
    }

    /** oss << "key=" << value, with no separator. */
    method AppendFirst(key: string, value: string)
      modifies this
      ensures oss == old(oss) + key + ['='] + value
    {
      oss := oss + key + ['='] + value;
    }

    method AppendEncoded(key: string, value: string)
      modifies this
      ensures oss == old(oss) + Pair(key, value)
    {
      hide Escaped;
      var e := EncodeURIComponent(value);
      AppendFirst(key, e);
    }

    method AppendDefaults(language: string)
      modifies this
      ensures oss == old(oss) + Query([Param("tier", Defaults(language).0), Param("model", Defaults(language).1)])
    {
      hide Tail, Query, Defaults, Escaped, AllPlain;
      var (tier, model) := Defaults(language);
      DefaultsPlain(language);
      PlainIsItself(tier);
      HeadOfTwo(Param("tier", tier), Param("model", model));
      AppendFirst("tier", tier);
      AppendPlain("model", model);
    }

    /** Exactly one model parameter, and a separator only between the two. */
    method AppendChosen(tier: Option<string>, model: Option<string>)
      requires tier.Some? || model.Some?
      modifies this
      ensures oss == old(oss) + Query(Var("tier", tier) + Var("model", model))
    {
      hide Tail, Query, Escaped, Var, Pair;
      HeadOfVars(tier, model);
      var first := true;
      if tier.Some? {
        AppendEncoded("tier", tier.value);
        first := false;
      }
      if model.Some? {
        if !first {
          oss := oss + ['&'];
        }
        AppendEncoded("model", model.value);
      }
    }

    method AppendHead(c: Config)
      modifies this
      ensures oss == old(oss) + Query(Head(c))
    {
      if c.tier.None? && c.model.None? && c.customModel.None? {
        AppendDefaults(c.language);
      } else {
        AppendChosen(c.tier, if c.customModel.Some? then c.customModel else c.model);
      }
    }

    method AppendPair(k: string, v: string, k2: string, v2: string)
      requires AllPlain(v) && AllPlain(v2)
      modifies this
      ensures oss == old(oss) + (Tail([Param(k, v)]) + Tail([Param(k2, v2)]))
    {
      hide Tail, Segment;
      AppendPlain(k, v);
      AppendPlain(k2, v2);
    }

    method AppendSpeech(c: Config)
      modifies this
      ensures oss == old(oss) + (Tail(Var("version", c.version)) + Tail([Param("language", c.language)])
        + if c.channels == 2 then Tail([Param("multichannel", "true")]) + Tail([Param("channels", "2")]) else [])
    {
      hide Tail, Segment, Var;
      AppendVar("version", c.version);
      Append("language", c.language);
      if c.channels == 2 { AppendPair("multichannel", "true", "channels", "2"); }
    }

    method AppendFormatting(c: Config)
      modifies this
      ensures oss == old(oss) + Tail(Formatting(c))
    {
      hide Tail, Segment, Var, Flag, Formatting;
      AppendSpeech(c);
      if c.smartFormat { AppendPair("smart_format", "true", "no_delay", "true"); }
      AppendFlag("punctuate", c.punctuate);
      AppendFlag("profanity_filter", c.profanityFilter);
      FormattingTail(c);
    }

    method AppendAnalysis(c: Config)
      modifies this
      ensures oss == old(oss) + Tail(Analysis(c))
    {
      hide Tail, Segment, Var, Flag, Analysis;
      AppendVar("redact", c.redact);
      if c.diarize {
        AppendPlain("diarize", "true");
        AppendVar("diarize_version", c.diarizeVersion);
      }
      AppendFlag("ner", c.ner);
      AppendVar("alternatives", c.alternatives);
      AppendFlag("numerals", c.numerals);
      AnalysisTail(c);
    }

    method AppendHints(c: Config)
      modifies this
      ensures oss == old(oss) + Tail(Hints(c))
    {
      hide Tail, Segment, Each, Hints;
      AppendEach("search", c.search);
      AppendEach("keywords", c.keywords);
      AppendEach("keyterm", c.keyterms);
      AppendEach("replace", c.replacements);
      HintsTail(c);
    }

    method AppendDelivery(c: Config)
      modifies this
      ensures oss == old(oss) + Tail(Delivery(c))
    {
      hide Tail, Segment, Var, Flag, Delivery;
      AppendVar("tag", c.tag);
      AppendFlag("interim_results", c.interim);
      AppendVar("endpointing", c.endpointing);
      AppendVar("utterance_end_ms", c.utteranceEnd);
      AppendVar("vad_turnoff", c.vadTurnoff);
      AppendPlain("encoding", "linear16");
      AppendPlain("sample_rate", "8000");
      DeliveryTail(c);
    }
  }

  /** constructPath: the path is the rendering of the intended list. */
  method ConstructPath(c: Config) returns (path: string)
    ensures path == "/v1/listen?" + Query(Params(c))
  {
    hide Tail, Query, Head, Formatting, Analysis, Hints, Delivery;
    var b := new PathBuilder();
    b.AppendHead(c);
    b.AppendFormatting(c);
    b.AppendAnalysis(c);
    b.AppendHints(c);
    b.AppendDelivery(c);
    QueryParts(Head(c), Formatting(c), Analysis(c), Hints(c), Delivery(c));
    path := b.oss;
  }

  lemma QueryParts(h: seq<Param>, f: seq<Param>, a: seq<Param>, i: seq<Param>, d: seq<Param>)
    requires h != []
    ensures Query(h + f + a + i + d) == Query(h) + Tail(f) + Tail(a) + Tail(i) + Tail(d)
  {
    QueryAppend(h + f + a + i, d);
    QueryAppend(h + f + a, i);
    QueryAppend(h + f, a);
    QueryAppend(h, f);
  }

  lemma DiarizeTail(on: bool, version: Option<string>)
    ensures Tail(Flag("diarize", on)) + Tail(Var("diarize_version", if on then version else None))
         == if on then Tail([Param("diarize", "true")]) + Tail(Var("diarize_version", version)) else []
  {
  }

  lemma AnalysisTail(c: Config)
    ensures Tail(Analysis(c)) == Tail(Var("redact", c.redact)) +
      (if c.diarize then Tail([Param("diarize", "true")]) + Tail(Var("diarize_version", c.diarizeVersion)) else [])
      + Tail(Flag("ner", c.ner)) + Tail(Var("alternatives", c.alternatives)) + Tail(Flag("numerals", c.numerals))
  {
    hide Tail, Flag, Var;
    var a, b, d := Var("redact", c.redact), Flag("diarize", c.diarize),
                   Var("diarize_version", if c.diarize then c.diarizeVersion else None);
    var e, f, g := Flag("ner", c.ner), Var("alternatives", c.alternatives), Flag("numerals", c.numerals);
    DiarizeTail(c.diarize, c.diarizeVersion);
    Tail2(a, b, d);
    Tail2(a + b + d, e, f);
    TailAppend(a + b + d + e + f, g);
    assert Tail(a) + Tail(b) + Tail(d) == Tail(a) + (Tail(b) + Tail(d));
  }

  lemma HintsTail(c: Config)
    ensures Tail(Hints(c)) == Tail(Each("search", c.search)) + Tail(Each("keywords", c.keywords))
      + Tail(Each("keyterm", c.keyterms)) + Tail(Each("replace", c.replacements))
  {
    var a, b := Each("search", c.search), Each("keywords", c.keywords);
    var d, e := Each("keyterm", c.keyterms), Each("replace", c.replacements);
    Tail2(a, b, d);
    TailAppend(a + b + d, e);
  }

  lemma DeliveryTail(c: Config)
    ensures Tail(Delivery(c)) ==
      Tail(Var("tag", c.tag)) + Tail(Flag("interim_results", c.interim)) + Tail(Var("endpointing", c.endpointing))
      + Tail(Var("utterance_end_ms", c.utteranceEnd)) + Tail(Var("vad_turnoff", c.vadTurnoff))
      + Tail([Param("encoding", "linear16")]) + Tail([Param("sample_rate", "8000")])
  {
    var a, b, d := Var("tag", c.tag), Flag("interim_results", c.interim), Var("endpointing", c.endpointing);
    var e, f := Var("utterance_end_ms", c.utteranceEnd), Var("vad_turnoff", c.vadTurnoff);
    Tail2(a, b, d);
    Tail2(a + b + d, e, f);
    TailAppend(a + b + d + e + f, [Param("encoding", "linear16"), Param("sample_rate", "8000")]);
    TailPair(Param("encoding", "linear16"), Param("sample_rate", "8000"));
  }

  lemma DefaultsPlain(language: string)
    ensures AllPlain(Defaults(language).0) && AllPlain(Defaults(language).1)
  {
  }

  lemma Tail2(a: seq<Param>, b: seq<Param>, c: seq<Param>)
    ensures Tail(a + b + c) == Tail(a) + Tail(b) + Tail(c)
  {
    TailAppend(a + b, c);
    TailAppend(a, b);
  }

  lemma TailPair(a: Param, b: Param)
    ensures Tail([a, b]) == Tail([a]) + Tail([b])
  {
    assert [a, b] == [a] + [b];
    TailAppend([a], [b]);
  }

  lemma FormattingTail(c: Config)
    ensures Tail(Formatting(c)) ==
      Tail(Var("version", c.version)) + Tail([Param("language", c.language)])
      + (if c.channels == 2 then Tail([Param("multichannel", "true")]) + Tail([Param("channels", "2")]) else [])
      + (if c.smartFormat then Tail([Param("smart_format", "true")]) + Tail([Param("no_delay", "true")]) else [])
      + Tail(Flag("punctuate", c.punctuate)) + Tail(Flag("profanity_filter", c.profanityFilter))
  {
    var a, b := Var("version", c.version), [Param("language", c.language)];
    var d := if c.channels == 2 then [Param("multichannel", "true"), Param("channels", "2")] else [];
    var e := if c.smartFormat then [Param("smart_format", "true"), Param("no_delay", "true")] else [];
    var f, g := Flag("punctuate", c.punctuate), Flag("profanity_filter", c.profanityFilter);
    Tail2(a, b, d);
    Tail2(a + b + d, e, f);
    TailAppend(a + b + d + e + f, g);
    TailPair(Param("multichannel", "true"), Param("channels", "2"));
    TailPair(Param("smart_format", "true"), Param("no_delay", "true"));
  }

  lemma HeadOfTwo(a: Param, b: Param)
    ensures Query([a, b]) == Segment(a) + Tail([b])
  {
    assert [a, b][1..] == [b];
  }

  /** key=value as it is streamed. */
  function Pair(key: string, value: string): string {
    key + ['='] + Escaped(value)
  }

  lemma HeadOfVars(tier: Option<string>, model: Option<string>)
    requires tier.Some? || model.Some?
    ensures Query(Var("tier", tier) + Var("model", model)) ==
      (if tier.Some? then Pair("tier", tier.value) else [])
      + (if model.Some? then (if tier.Some? then ['&'] else []) + Pair("model", model.value) else [])
  {
    if tier.Some? && model.Some? {
      HeadOfBoth("tier", tier.value, "model", model.value);
    } else if tier.Some? {
      HeadOfOne("tier", tier.value);
    } else {
      HeadOfOne("model", model.value);
    }
  }

  lemma HeadOfBoth(k: string, v: string, l: string, w: string)
    ensures Query(Var(k, Some(v)) + Var(l, Some(w))) == Pair(k, v) + (['&'] + Pair(l, w))
  {
    assert Var(k, Some(v)) + Var(l, Some(w)) == [Param(k, v), Param(l, w)];
    HeadOfTwo(Param(k, v), Param(l, w));
    TailOne(Param(l, w));
  }

  lemma HeadOfOne(k: string, v: string)
    ensures Query(Var(k, Some(v)) + []) == Pair(k, v) && Query([] + Var(k, Some(v))) == Pair(k, v)
  {
    assert Var(k, Some(v)) + [] == [Param(k, v)] && [] + Var(k, Some(v)) == [Param(k, v)];
    assert [Param(k, v)][1..] == [];
  }

  lemma {:induction false} EachAppend(key: string, a: seq<string>, b: seq<string>)
    ensures Each(key, a + b) == Each(key, a) + Each(key, b)
    decreases |a|
  {
    if a == [] {
      assert a + b == b;
    } else {
      assert (a + b)[1..] == a[1..] + b;
      EachAppend(key, a[1..], b);
    }
  }

  lemma EachOne(key: string, phrase: string)
    ensures Each(key, [phrase]) == [Param(key, phrase)]
  {
    var one := [phrase];
    assert |one[1..]| == 0;
    assert Each(key, one) == [Param(key, phrase)] + Each(key, one[1..]);
  }

  lemma EachNone(key: string, phrases: seq<string>)
    ensures Tail(Each(key, phrases[..0])) == []
  {
    assert phrases[..0] == [];
  }

  lemma EachSnoc(key: string, phrases: seq<string>, i: nat)
    requires i < |phrases|
    ensures Tail(Each(key, phrases[..i + 1])) == Tail(Each(key, phrases[..i])) + Tail([Param(key, phrases[i])])
  {
    assert phrases[..i + 1] == phrases[..i] + [phrases[i]];
    EachAppend(key, phrases[..i], [phrases[i]]);
    EachOne(key, phrases[i]);
    TailAppend(Each(key, phrases[..i]), [Param(key, phrases[i])]);
  }
}
