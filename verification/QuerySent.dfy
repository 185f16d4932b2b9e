/** What constructPath sends, read off the channel variables one by one, and the alphabet and
    the defaults it uses, each against a second table. */
module QuerySent {
  import opened Common
  import opened QueryCodec
  import opened QueryBuilder
  import opened QueryParse

  // ---------------------------------------------------------------- the alphabet

  /** The unreserved characters of section 2.3 of RFC 3986. */
  predicate Unreserved(c: char) {
    'A' <= c <= 'Z' || 'a' <= c <= 'z' || '0' <= c <= '9' || c == '-' || c == '.' || c == '_' || c == '~'
  }

  /** The regular expression keeps these, and eight of the reserved characters. */
  lemma PlainExact(c: char)
    ensures Plain(c) <==> Unreserved(c) || c in {'!', '\'', '(', ')', '*', '+', ',', ':'}
  {
  }

  predicate UpperHex(c: char) {
    '0' <= c <= '9' || 'A' <= c <= 'F'
  }

  /** A kept character stands for itself; any other byte from 0x10 on becomes '%' and its two
      hexadecimal digits, as section 2.1 of RFC 3986 has it, and one below 0x10 '%' and one digit. */
  lemma EscapeExact(c: char)
    requires c as int < 256
    ensures var e := EscapedChar(c);
      if Plain(c) then e == [c]
      else if c as int < 16 then |e| == 2 && e[0] == '%' && UpperHex(e[1]) && HexValue(e[1]) == c as int
      else |e| == 3 && e[0] == '%' && UpperHex(e[1]) && UpperHex(e[2]) && HexValue(e[1]) * 16 + HexValue(e[2]) == c as int
  {
    assert c as int % 256 == c as int;
    if !Plain(c) {
      hide Plain, HexDigit, HexValue, UpperHex;
      if c as int < 16 {
        UpperDigit(c as int);
      } else {
        UpperDigit(c as int / 16);
        UpperDigit(c as int % 16);
      }
    }
  }

  lemma UpperDigit(k: nat)
    requires k < 16
    ensures UpperHex(HexDigit(k)) && HexValue(HexDigit(k)) == k
  {
  }

  /** An encoding holds nothing but kept characters, '%' and hexadecimal digits; a blank becomes %20. */
  lemma {:induction false} EncodedAlphabet(s: string)
    requires IsBytes(s)
    ensures forall i :: 0 <= i < |Escaped(s)| ==>
      Unreserved(Escaped(s)[i]) || Escaped(s)[i] in {'%', '!', '\'', '(', ')', '*', '+', ',', ':'}
    ensures Escaped(" ") == "%20"
    decreases |s|
  {
    EscapeExact(' ');
    EscapedOne(' ');
    if s != [] {
      EscapeExact(s[0]);
      EncodedAlphabet(s[1..]);
    }
  }

  // ---------------------------------------------------------------- the defaults

  datatype Info = Info(language: string, tier: string, model: string)

  /** languageLookupTable */
  const NOVA := [Info("en", "nova", "phonecall"), Info("en-US", "nova", "phonecall"), Info("en-AU", "nova", "general"),
    Info("en-GB", "nova", "general"), Info("en-IN", "nova", "general"), Info("en-NZ", "nova", "general"),
    Info("es", "nova", "general"), Info("es-419", "nova", "general")]

  const ENHANCED := [Info("da", "enhanced", "general"), Info("nl", "enhanced", "general"), Info("fr", "enhanced", "general"),
    Info("de", "enhanced", "general"), Info("hi", "enhanced", "general"), Info("ja", "enhanced", "general"),
    Info("ko", "enhanced", "general"), Info("no", "enhanced", "general"), Info("pl", "enhanced", "general"),
    Info("pt", "enhanced", "general"), Info("pt-BR", "enhanced", "general"), Info("pt-PT", "enhanced", "general"),
    Info("sv", "enhanced", "general"), Info("ta", "enhanced", "general")]

  const BASE := [Info("zh", "base", "general"), Info("zh-CN", "base", "general"), Info("zh-TW", "base", "general"),
    Info("fr-CA", "base", "general"), Info("hi-Latn", "base", "general"), Info("id", "base", "general"),
    Info("ru", "base", "general"), Info("tr", "base", "general"), Info("uk", "base", "general")]

  predicate Defaulted(i: Info) {
    Defaults(i.language) == (i.tier, i.model)
  }

  lemma NovaDefaults()
    ensures forall i :: i in NOVA ==> Defaulted(i)
  {
  }

  lemma EnhancedDefaults()
    ensures forall i :: i in ENHANCED ==> Defaulted(i)
  {
    hide Defaulted;
    assert ENHANCED == ENHANCED[..4] + ENHANCED[4..9] + ENHANCED[9..];
    EnhancedFirst();
    EnhancedSecond();
    EnhancedLast();
  }

  lemma EnhancedFirst()
    ensures forall i :: i in ENHANCED[..4] ==> Defaulted(i)
  {
    assert ENHANCED[..4] == [ENHANCED[0], ENHANCED[1], ENHANCED[2], ENHANCED[3]];
  }

  lemma EnhancedSecond()
    ensures forall i :: i in ENHANCED[4..9] ==> Defaulted(i)
  {
    assert ENHANCED[4..9] == [ENHANCED[4], ENHANCED[5], ENHANCED[6], ENHANCED[7], ENHANCED[8]];
  }

  lemma EnhancedLast()
    ensures forall i :: i in ENHANCED[9..] ==> Defaulted(i)
  {
    assert ENHANCED[9..] == [ENHANCED[9], ENHANCED[10], ENHANCED[11], ENHANCED[12], ENHANCED[13]];
  }

  lemma BaseDefaults()
    ensures forall i :: i in BASE ==> Defaulted(i)
  {
    hide Defaulted;
    assert BASE == BASE[..3] + BASE[3..6] + BASE[6..];
    BaseFirst();
    BaseSecond();
    BaseLast();
  }

  lemma BaseFirst()
    ensures forall i :: i in BASE[..3] ==> Defaulted(i)
  {
    assert BASE[..3] == [BASE[0], BASE[1], BASE[2]];
  }

  lemma BaseSecond()
    ensures forall i :: i in BASE[3..6] ==> Defaulted(i)
  {
    assert BASE[3..6] == [BASE[3], BASE[4], BASE[5]];
  }

  lemma BaseLast()
    ensures forall i :: i in BASE[6..] ==> Defaulted(i)
  {
    assert BASE[6..] == [BASE[6], BASE[7], BASE[8]];
  }

  /** No other language has an entry; it gets the most widely supported pair, as those in BASE do. */
  lemma OtherDefaults(language: string)
    requires forall i :: i in NOVA + ENHANCED ==> i.language != language
    ensures Defaults(language) == ("base", "general")
  {
    hide Defaults;
    NotNova(language);
    NotEnhanced(language);
    ByElimination(language);
  }

  lemma NotNamed(language: string, table: seq<Info>, names: seq<string>)
    requires |table| == |names| && forall k :: 0 <= k < |table| ==> table[k].language == names[k]
    requires forall i :: i in table ==> i.language != language
    ensures language !in names
  {
    forall k | 0 <= k < |names| ensures names[k] != language {
      assert table[k] in table;
    }
  }

  lemma NotNova(language: string)
    requires forall i :: i in NOVA ==> i.language != language
    ensures language !in ["en", "en-US", "en-AU", "en-GB", "en-IN", "en-NZ", "es", "es-419"]
  {
    NotNamed(language, NOVA, ["en", "en-US", "en-AU", "en-GB", "en-IN", "en-NZ", "es", "es-419"]);
  }

  lemma NotEnhanced(language: string)
    requires forall i :: i in ENHANCED ==> i.language != language
    ensures language !in ["da", "nl", "fr", "de", "hi", "ja", "ko", "no", "pl", "pt", "pt-BR", "pt-PT", "sv", "ta"]
  {
    NotNamed(language, ENHANCED, ["da", "nl", "fr", "de", "hi", "ja", "ko", "no", "pl", "pt", "pt-BR", "pt-PT", "sv", "ta"]);
  }

  lemma ByElimination(language: string)
    requires language !in ["en", "en-US", "en-AU", "en-GB", "en-IN", "en-NZ", "es", "es-419"]
    requires language !in ["da", "nl", "fr", "de", "hi", "ja", "ko", "no", "pl", "pt", "pt-BR", "pt-PT", "sv", "ta"]
    ensures Defaults(language) == ("base", "general")
  {
  }

  /** Every entry of the table is what the language gets. */
  lemma DefaultsAreTheTable(i: Info)
    requires i in NOVA + ENHANCED + BASE
    ensures Defaults(i.language) == (i.tier, i.model)
  {
    hide Defaults;
    NovaDefaults();
    EnhancedDefaults();
    BaseDefaults();
  }

  // ---------------------------------------------------------------- what is sent

  /** The tier that goes with the model: the one chosen; with nothing chosen at all the language's
      default; with a model alone, none. */
  function ChosenTier(c: Config): Option<string> {
    if c.tier.Some? then c.tier
    else if c.model.Some? || c.customModel.Some? then None
    else Some(Defaults(c.language).0)
  }

  predicate FromFormatting(c: Config, p: Param) {
    || (p.key == "version" && c.version == Some(p.value))
    || p == Param("language", c.language)
    || (c.channels == 2 && (p == Param("multichannel", "true") || p == Param("channels", "2")))
    || (c.smartFormat && (p == Param("smart_format", "true") || p == Param("no_delay", "true")))
    || (c.punctuate && p == Param("punctuate", "true"))
    || (c.profanityFilter && p == Param("profanity_filter", "true"))
  }

  predicate FromAnalysis(c: Config, p: Param) {
    || (p.key == "redact" && c.redact == Some(p.value))
    || (c.diarize && p == Param("diarize", "true"))
    || (c.diarize && p.key == "diarize_version" && c.diarizeVersion == Some(p.value))
    || (c.ner && p == Param("ner", "true"))
    || (p.key == "alternatives" && c.alternatives == Some(p.value))
    || (c.numerals && p == Param("numerals", "true"))
  }

  predicate FromHints(c: Config, p: Param) {
    || (p.key == "search" && p.value in c.search)
    || (p.key == "keywords" && p.value in c.keywords)
    || (p.key == "keyterm" && p.value in c.keyterms)
    || (p.key == "replace" && p.value in c.replacements)
  }

  predicate FromDelivery(c: Config, p: Param) {
    || (p.key == "tag" && c.tag == Some(p.value))
    || (c.interim && p == Param("interim_results", "true"))
    || (p.key == "endpointing" && c.endpointing == Some(p.value))
    || (p.key == "utterance_end_ms" && c.utteranceEnd == Some(p.value))
    || (p.key == "vad_turnoff" && c.vadTurnoff == Some(p.value))
    || p == Param("encoding", "linear16") || p == Param("sample_rate", "8000")
  }

  lemma InVar(key: string, v: Option<string>, p: Param)
    ensures p in Var(key, v) <==> p.key == key && v == Some(p.value)
  {
  }

  lemma InFlag(key: string, on: bool, p: Param)
    ensures p in Flag(key, on) <==> on && p == Param(key, "true")
  {
  }

  lemma {:induction false} InEach(key: string, phrases: seq<string>, p: Param)
    ensures p in Each(key, phrases) <==> p.key == key && p.value in phrases
    decreases |phrases|
  {
    if phrases != [] {
      InEach(key, phrases[1..], p);
      assert phrases == [phrases[0]] + phrases[1..];
    }
  }

  lemma FormattingSent(c: Config, p: Param)
    ensures p in Formatting(c) <==> FromFormatting(c, p)
  {
    hide Var, Flag;
    InVar("version", c.version, p);
    InFlag("punctuate", c.punctuate, p);
    InFlag("profanity_filter", c.profanityFilter, p);
  }

  lemma AnalysisSent(c: Config, p: Param)
    ensures p in Analysis(c) <==> FromAnalysis(c, p)
  {
    hide Var, Flag;
    InVar("redact", c.redact, p);
    InFlag("diarize", c.diarize, p);
    InVar("diarize_version", if c.diarize then c.diarizeVersion else None, p);
    InFlag("ner", c.ner, p);
    InVar("alternatives", c.alternatives, p);
    InFlag("numerals", c.numerals, p);
  }

  lemma HintsSent(c: Config, p: Param)
    ensures p in Hints(c) <==> FromHints(c, p)
  {
    hide Each;
    InEach("search", c.search, p);
    InEach("keywords", c.keywords, p);
    InEach("keyterm", c.keyterms, p);
    InEach("replace", c.replacements, p);
  }

  lemma DeliverySent(c: Config, p: Param)
    ensures p in Delivery(c) <==> FromDelivery(c, p)
  {
    hide Var, Flag;
    InVar("tag", c.tag, p);
    InFlag("interim_results", c.interim, p);
    InVar("endpointing", c.endpointing, p);
    InVar("utterance_end_ms", c.utteranceEnd, p);
    InVar("vad_turnoff", c.vadTurnoff, p);
  }

  lemma HeadSent(c: Config, p: Param)
    ensures p in Head(c) <==>
      (p.key == "tier" && ChosenTier(c) == Some(p.value)) || (p.key == "model" && ChosenModel(c) == Some(p.value))
  {
    hide Defaults, Var;
    InVar("tier", c.tier, p);
    InVar("model", if c.customModel.Some? then c.customModel else c.model, p);
  }

  /** A parameter is sent if and only if a channel variable, or the language, asks for it: the
      request holds nothing else, and leaves nothing out. */
  lemma SentExactly(c: Config, p: Param)
    ensures p in Params(c) <==>
      || (p.key == "tier" && ChosenTier(c) == Some(p.value))
      || (p.key == "model" && ChosenModel(c) == Some(p.value))
      || FromFormatting(c, p) || FromAnalysis(c, p) || FromHints(c, p) || FromDelivery(c, p)
  {
    hide Head, Formatting, Analysis, Hints, Delivery, ChosenTier, ChosenModel;
    hide FromFormatting, FromAnalysis, FromHints, FromDelivery;
    HeadSent(c, p);
    FormattingSent(c, p);
    AnalysisSent(c, p);
    HintsSent(c, p);
    DeliverySent(c, p);
  }
}
