/**
 * The prompt-building helpers of services/gemini.ts: base-URL sanitising,
 * the rhythm description of a drum grid, the numbered structure-rule text,
 * the conditional rhyme constraint, normalisation of the model's answer and
 * the retry/back-off schedule.
 */
module Prompt {
  import opened Common
  import opened Text
  import opened Drums

  // ---------------------------------------------------------------------
  // Provider endpoint
  // ---------------------------------------------------------------------

  const DefaultBaseUrl: string := "https://api.openai.com/v1"
  const ChatSuffix: string := "/chat/completions"
  const DefaultModelName: string := "gpt-3.5-turbo"

  /**
   * Trailing slashes removed, then one trailing "/chat/completions" removed:
   * the part of base-URL cleaning shared by the generator and the
   * dashboard's connection test.
   */
  function DropEndpoint(s: string): (r: string)
    ensures |r| <= |s| && r == s[..|r|]
    ensures EndsWith(StripTrailing(s, '/'), ChatSuffix) ==> r + ChatSuffix == StripTrailing(s, '/')
    ensures !EndsWith(StripTrailing(s, '/'), ChatSuffix) ==> r == StripTrailing(s, '/')
  {
    var clean := StripTrailing(s, '/');
    if EndsWith(clean, ChatSuffix) then clean[..|clean| - |ChatSuffix|] else clean
  }

  /**
   * `sanitizeBaseUrl`: the default endpoint for a missing or empty setting;
   * otherwise the trimmed setting with its trailing slashes and one
   * "/chat/completions" removed.
   */
  function SanitizeBaseUrl(url: Option<string>): (r: string)
    ensures url.None? || url == Some("") ==> r == DefaultBaseUrl
    ensures url.Some? && url.value != "" ==> StartsWith(Trim(url.value), r)
    ensures url.Some? && url.value != "" ==> r == DropEndpoint(Trim(url.value))
  {
    match url
    case None => DefaultBaseUrl
    case Some(u) => if u == "" then DefaultBaseUrl else DropEndpoint(Trim(u))
  }

  /** The address the request is posted to. */
  function EndpointUrl(baseUrl: string): (r: string)
    ensures EndsWith(r, ChatSuffix) && StartsWith(r, baseUrl)
    ensures |r| == |baseUrl| + |ChatSuffix|
  {
    baseUrl + ChatSuffix
  }

  /** `config.modelName || "gpt-3.5-turbo"` */
  function ModelName(name: Option<string>): (r: string)
    ensures r != ""
    ensures name.Some? && name.value != "" ==> r == name.value
    ensures name.None? || name.value == "" ==> r == DefaultModelName
  {
    match name
    case Some(n) => if n == "" then DefaultModelName else n
    case None => DefaultModelName
  }

  /**
   * A setting made only of white space is not empty, so it escapes the
   * default and is trimmed to nothing: requests then go to the relative
   * address "/chat/completions".
   */
  lemma WhitespaceBaseUrlIsEmpty(u: string)
    requires u != "" && AllSpace(u)
    ensures SanitizeBaseUrl(Some(u)) == ""
    ensures EndpointUrl(SanitizeBaseUrl(Some(u))) == ChatSuffix
  {
    TrimEmptyIffAllSpace(u);
  }

  /**
   * A clean base URL (trimmed, no trailing slash, not itself an endpoint) is
   * recovered from itself, from itself with trailing slashes, and from its
   * full chat endpoint with or without trailing slashes; the endpoint built
   * from it is then the endpoint the setting named.
   */
  lemma SanitizeRecoversBase(b: string, slashes: nat)
    requires b != "" && !IsSpace(b[0]) && !IsSpace(b[|b| - 1]) && b[|b| - 1] != '/' && !EndsWith(b, ChatSuffix)
    ensures SanitizeBaseUrl(Some(b + seq(slashes, _ => '/'))) == b
    ensures SanitizeBaseUrl(Some(EndpointUrl(b) + seq(slashes, _ => '/'))) == b
  {
    SanitizeIgnoresSlashes(b, slashes);
    var e := EndpointUrl(b);
    assert e[|e| - 1] == 's' && e[0] == b[0];
    SanitizeIgnoresSlashes(e, slashes);
    assert EndsWith(e, ChatSuffix);
    assert e[..|e| - |ChatSuffix|] == b;
  }

  /** Trailing slashes after a trimmed setting change nothing in the result. */
  lemma SanitizeIgnoresSlashes(s: string, slashes: nat)
    requires s != "" && !IsSpace(s[0]) && !IsSpace(s[|s| - 1]) && s[|s| - 1] != '/'
    ensures SanitizeBaseUrl(Some(s + seq(slashes, _ => '/'))) == DropEndpoint(s)
  {
    SlashedIsTrimmed(s, slashes);
    StripSlashesAfter(s, slashes);
    SanitizeOfClean(s + seq(slashes, _ => '/'), s);
  }

  lemma SlashedIsTrimmed(s: string, slashes: nat)
    requires s != "" && !IsSpace(s[0]) && !IsSpace(s[|s| - 1])
    ensures Trim(s + seq(slashes, _ => '/')) == s + seq(slashes, _ => '/')
  {
    TrimmedWithSlashes(s, seq(slashes, _ => '/'));
  }

  /** A trimmed, non-empty setting whose slashes strip down to `s` sanitises as `s` does. */
  lemma SanitizeOfClean(u: string, s: string)
    requires u != "" && Trim(u) == u
    requires s != "" && s[|s| - 1] != '/' && StripTrailing(u, '/') == s
    ensures SanitizeBaseUrl(Some(u)) == DropEndpoint(s)
  {
    assert StripTrailing(s, '/') == s;
    DropEndpointAfterStrip(u, s);
  }

  /** `DropEndpoint` looks only at the string with its trailing slashes removed. */
  lemma DropEndpointAfterStrip(u: string, s: string)
    requires StripTrailing(u, '/') == StripTrailing(s, '/')
    ensures DropEndpoint(u) == DropEndpoint(s)
  {
  }

  lemma {:induction false} StripSlashesAfter(s: string, slashes: nat)
    requires s != [] && s[|s| - 1] != '/'
    ensures StripTrailing(s + seq(slashes, _ => '/'), '/') == s
  {
    if slashes > 0 {
      var t := s + seq(slashes, _ => '/');
      assert t[..|t| - 1] == s + seq(slashes - 1, _ => '/');
      StripSlashesAfter(s, slashes - 1);
    } else {
      assert s + seq(slashes, _ => '/') == s;
    }
  }

  lemma TrimmedWithSlashes(s: string, tail: string)
    requires s != [] && !IsSpace(s[0]) && !IsSpace(s[|s| - 1])
    requires forall k :: 0 <= k < |tail| ==> tail[k] == '/'
    ensures Trim(s + tail) == s + tail
  {
    var t := s + tail;
    assert !IsSpace(t[0]);
    assert TrimStart(t) == t;
    assert !IsSpace(t[|t| - 1]);
  }

  // ---------------------------------------------------------------------
  // Rhythm description
  // ---------------------------------------------------------------------

  /** `getActiveSteps` before joining: the 1-based positions of the set cells, ascending. */
  function ActiveSteps(cells: seq<bool>): (r: seq<nat>)
    ensures forall k :: k in r <==> 1 <= k <= |cells| && cells[k - 1]
    ensures forall a, b :: 0 <= a < b < |r| ==> r[a] < r[b]
  {
    if cells == [] then []
    else
      var front := cells[..|cells| - 1];
      var earlier := ActiveSteps(front);
      var last := if cells[|cells| - 1] then [|cells|] else [];
      assert forall i :: 0 <= i < |front| ==> front[i] == cells[i];
      assert forall a :: 0 <= a < |earlier| ==> earlier[a] in earlier && earlier[a] < |cells|;
      assert |cells| !in earlier;
      assert forall k :: k in earlier + last <==> k in earlier || k in last;
      earlier + last
  }

  /**
   * `getActiveSteps(inst)`: the positions written out and joined by ", ":
   * empty when no cell is set, otherwise the first position followed by one
   * comma before each further position.
   */
  function StepList(cells: seq<bool>): (r: string)
    ensures r == "" <==> forall i :: 0 <= i < |cells| ==> !cells[i]
    ensures ActiveSteps(cells) != [] ==> StartsWith(r, IntToString(ActiveSteps(cells)[0]))
    ensures ActiveSteps(cells) != [] ==> multiset(r)[','] == |ActiveSteps(cells)| - 1
  {
    var steps := ActiveSteps(cells);
    if steps == [] then
      assert forall i :: 0 <= i < |cells| && cells[i] ==> i + 1 in steps;
      Join(StepTexts(steps), ", ")
    else
      assert steps[0] in steps;
      CommaCount(steps);
      Join(StepTexts(steps), ", ")
  }

  /** The decimal text of each position. */
  function StepTexts(steps: seq<nat>): (parts: seq<string>)
    ensures |parts| == |steps|
    ensures forall k :: 0 <= k < |steps| ==> parts[k] == IntToString(steps[k])
  {
    seq(|steps|, k requires 0 <= k < |steps| => IntToString(steps[k]))
  }

  /**
   * The step list reads back as the positions: split at ',', each piece
   * parses to the position at its index. With no set cell the text is empty
   * and splits into one empty piece.
   */
  lemma StepListRoundTrip(cells: seq<bool>)
    ensures ActiveSteps(cells) == [] ==> Split(StepList(cells), ',') == [""]
    ensures var steps := ActiveSteps(cells);
      var pieces := Split(StepList(cells), ',');
      steps != [] ==> |pieces| == |steps| && forall k :: 0 <= k < |steps| ==> ParseInt(pieces[k]) == Some(steps[k] as int)
  {
    var steps := ActiveSteps(cells);
    if steps != [] {
      assert StepList(cells) == Join(StepTexts(steps), ", ");
      JoinedStepsParse(steps);
    }
  }

  /** The pieces of joined positions, split at ',', parse back to the positions. */
  lemma JoinedStepsParse(steps: seq<nat>)
    requires steps != []
    ensures var pieces := Split(Join(StepTexts(steps), ", "), ',');
      |pieces| == |steps| && forall k :: 0 <= k < |steps| ==> ParseInt(pieces[k]) == Some(steps[k] as int)
  {
    var parts := StepTexts(steps);
    NoCommaInSteps(steps);
    assert ", "[0] == ',' && ", "[1..] == " ";
    SplitJoin(parts, ", ", ',');
    var pieces := Split(Join(parts, ", "), ',');
    forall k | 0 <= k < |steps|
      ensures ParseInt(pieces[k]) == Some(steps[k] as int)
    {
      ParseIntOfIntToString(steps[k]);
      if k > 0 {
        ParseIntSkipsSpace(" ", IntToString(steps[k]));
      }
    }
  }

  lemma NoCommaInSteps(steps: seq<nat>)
    ensures forall k :: 0 <= k < |steps| ==> ',' !in StepTexts(steps)[k]
  {
    forall k | 0 <= k < |steps|
      ensures ',' !in StepTexts(steps)[k]
    {
      assert !IsDecimalDigit(',');
    }
  }

  lemma CommaCount(steps: seq<nat>)
    requires steps != []
    ensures multiset(Join(StepTexts(steps), ", "))[','] == |steps| - 1
  {
    var parts := StepTexts(steps);
    NoCommaInSteps(steps);
    assert multiset(", ")[','] == 1;
    JoinCount(parts, ", ", ',');
  }

  /** An uploaded beat: file name, base64 payload and MIME type. */
  datatype Beat = Beat(name: string, data: string, mimeType: string)

  const StandardRhythm: string := "Standard 4/4 Beat"

  /** The custom rhythm text: kick, snare and hi-hat positions, then the alignment instruction. */
  function CustomRhythm(g: Grid): string
    requires IsGrid(g)
  {
    KickHeading + StepList(g[Kick]) + SnareHeading + StepList(g[Snare])
    + HiHatHeading + StepList(g[HiHat]) + AlignmentInstruction
  }

  const KickHeading: string := "\n        Custom Beat Pattern (16 Steps):\n        - Kick hits on steps: ["
  const SnareHeading: string := "]\n        - Snare hits on steps: ["
  const HiHatHeading: string := "]\n        - HiHat hits on steps: ["
  const AlignmentInstruction: string := "]\n        \n        CRITICAL INSTRUCTION: Write the lyrics so the stressed syllables align with the Kick and Snare hits defined above. The Flow MUST match this specific drum pattern.\n      "

  /** `rhythmDescription`: the custom text only for a drum pattern without beat audio. */
  function RhythmDescription(pattern: Option<Grid>, beat: Option<Beat>): (r: string)
    requires pattern.Some? ==> IsGrid(pattern.value)
    ensures pattern.Some? && beat.None? ==> r == CustomRhythm(pattern.value)
    ensures pattern.None? || beat.Some? ==> r == StandardRhythm
  {
    if pattern.Some? && beat.None? then CustomRhythm(pattern.value) else StandardRhythm
  }

  /** The percussion row never reaches the prompt. */
  lemma RhythmIgnoresPerc(g1: Grid, g2: Grid, beat: Option<Beat>)
    requires IsGrid(g1) && IsGrid(g2)
    requires g1[Kick] == g2[Kick] && g1[Snare] == g2[Snare] && g1[HiHat] == g2[HiHat]
    ensures RhythmDescription(Some(g1), beat) == RhythmDescription(Some(g2), beat)
  {
  }

  // ---------------------------------------------------------------------
  // Rhyme schemes and the structure map
  // ---------------------------------------------------------------------

  /** `RhymeScheme`; the members the code tests by name, and the rest by label. */
  datatype RhymeScheme = Freestyle | AABB | Double | Linear | OtherScheme(text: string)

  /** The text a scheme contributes to the prompt. */
  function Label(s: RhymeScheme): string {
    match s
    case Freestyle => "Freestyle"
    case AABB => "AABB"
    case Double => "Double"
    case Linear => "Linear"
    case OtherScheme(t) => t
  }

  /** `StructureRule`: a rhyme scheme imposed on a line range of one section. */
  datatype StructureRule = StructureRule(id: string, section: string, startLine: int, endLine: int, scheme: RhymeScheme)

  const StructureHeader: string := "\nSTRICT CUSTOM STRUCTURE RULES (You MUST follow these exact instructions for the specific lines):"
  const StructureFooter: string := "\n(For any lines not specified above, use the Default Global Rhyme Scheme)."

  /** The line written for `rule` when it is number `index`. */
  function RuleLine(rule: StructureRule, index: int): string {
    "\n" + IntToString(index) + ". SECTION: " + rule.section + " | LINES: " + IntToString(rule.startLine)
    + " to " + IntToString(rule.endLine) + " | SCHEME: " + Label(rule.scheme)
  }

  /** The lines for `rules`, numbered from 1 by position. */
  function RuleLines(rules: seq<StructureRule>): string {
    if rules == [] then "" else RuleLines(rules[..|rules| - 1]) + RuleLine(rules[|rules| - 1], |rules|)
  }

  /** `customStructureMap`: empty without rules, otherwise header, one line per rule from 1, footer. */
  function StructureMap(rules: seq<StructureRule>): (r: string)
    ensures r == "" <==> rules == []
  {
    if rules == [] then "" else StructureHeader + RuleLines(rules) + StructureFooter
  }

  /** The `forEach` that builds `customStructureMap` with `+=`. */
  method BuildStructureMap(rules: seq<StructureRule>) returns (m: string)
    ensures m == StructureMap(rules)
  {
    m := "";
    if |rules| > 0 {
      m := StructureHeader;
      var index := 0;
      assert rules[..0] == [];
      assert m == StructureHeader + "";
      while index < |rules|
        invariant 0 <= index <= |rules|
        invariant m == StructureHeader + RuleLines(rules[..index])
      {
        StructureStep(StructureHeader, rules, index);
        m := m + RuleLine(rules[index], index + 1);
        index := index + 1;
      }
      assert rules[..index] == rules;
      m := m + StructureFooter;
    }
  }

  /** One pass of the loop: the next rule's line, numbered by its position, is appended. */
  lemma StructureStep(header: string, rules: seq<StructureRule>, index: nat)
    requires index < |rules|
    ensures header + RuleLines(rules[..index + 1])
         == header + RuleLines(rules[..index]) + RuleLine(rules[index], index + 1)
  {
    var done := rules[..index + 1];
    assert done[..|done| - 1] == rules[..index];
    assert done[|done| - 1] == rules[index];
  }

  const DoubleConstraint: string := "\n      STRICT RHYME CONSTRAINT: DOUBLE RHYME (دوبل قافیه / جناس مرکب).\n      You MUST ensure that the LAST TWO WORDS of the first line rhyme individually with the LAST TWO WORDS of the second line.\n      APPLY THIS SCHEME TO ALL COUPLETS.\n    "
  const LinearConstraint: string := "\n      STRICT RHYME CONSTRAINT: LINEAR RHYME (قافیه خطی / موازنه).\n      In this scheme, EVERY SINGLE WORD in the first line must rhyme with the corresponding word in the second line (Vertical Alignment).\n      Attempt to maintain this complex structure for the Chorus sections.\n    "

  function GlobalRhyme(scheme: RhymeScheme): string {
    "Default Global Rhyme Scheme: " + Label(scheme)
  }

  /**
   * `rhymeInstruction`: the global scheme, plus the strict Double or Linear
   * constraint only when there are no structure rules.
   */
  function RhymeInstruction(scheme: RhymeScheme, rules: seq<StructureRule>): (r: string)
    ensures rules != [] ==> r == GlobalRhyme(scheme)
    ensures rules == [] && scheme == Double ==> r == GlobalRhyme(scheme) + DoubleConstraint
    ensures rules == [] && scheme == Linear ==> r == GlobalRhyme(scheme) + LinearConstraint
    ensures scheme != Double && scheme != Linear ==> r == GlobalRhyme(scheme)
  {
    var base := GlobalRhyme(scheme);
    if scheme == Double && rules == [] then base + DoubleConstraint
    else if scheme == Linear && rules == [] then base + LinearConstraint
    else base
  }

  /** A prompt never carries both a strict rhyme constraint and a custom structure map. */
  lemma ConstraintExcludesStructureMap(scheme: RhymeScheme, rules: seq<StructureRule>)
    ensures RhymeInstruction(scheme, rules) != GlobalRhyme(scheme) <==> StructureMap(rules) == "" && (scheme == Double || scheme == Linear)
  {
    if rules == [] && (scheme == Double || scheme == Linear) {
      var base := GlobalRhyme(scheme);
      var extra := if scheme == Double then DoubleConstraint else LinearConstraint;
      assert |base + extra| > |base|;
    }
  }

  // ---------------------------------------------------------------------
  // Normalising the model's answer
  // ---------------------------------------------------------------------

  /** A parsed JSON field: what `typeof`, `||` and `String()` see. Numbers are integers here. */
  datatype JsValue = JsUndefined | JsNull | JsBool(b: bool) | JsNumber(n: int) | JsString(s: string) | JsObject

  predicate Truthy(v: JsValue) {
    match v
    case JsUndefined => false
    case JsNull => false
    case JsBool(b) => b
    case JsNumber(n) => n != 0
    case JsString(s) => s != ""
    case JsObject => true
  }

  /** `String(v)` */
  function ToStr(v: JsValue): (r: string)
    ensures v.JsString? ==> r == v.s
    ensures v.JsObject? || v.JsNumber? ==> r != ""
  {
    match v
    case JsUndefined => "undefined"
    case JsNull => "null"
    case JsBool(b) => if b then "true" else "false"
    case JsNumber(n) => IntToString(n)
    case JsString(s) => s
    case JsObject => "[object Object]"
  }

  /** The fields read from the parsed answer; an absent field is `JsUndefined`. */
  datatype RawResult = RawResult(title: JsValue, content: JsValue, aiAnalysis: JsValue)

  /** `LyricResponse` */
  datatype Lyric = Lyric(title: string, content: string, aiAnalysis: string, variant: string, suggestedBpm: int)

  const UntitledTitle: string := "بدون عنوان"
  const StandardVariant: string := "Standard_Flow_v1"

  /** The object both providers return from a parsed answer. */
  function Normalise(raw: RawResult, targetBpm: int): (l: Lyric)
    ensures !Truthy(raw.title) ==> l.title == UntitledTitle
    ensures Truthy(raw.title) ==> l.title == ToStr(raw.title)
    ensures l.title != ""
    ensures raw.content.JsString? ==> l.content == raw.content.s
    ensures !raw.content.JsString? ==> l.content == (if Truthy(raw.content) then ToStr(raw.content) else "")
    ensures l.aiAnalysis == (if raw.aiAnalysis.JsString? then raw.aiAnalysis.s else "")
    ensures l.variant == StandardVariant && l.suggestedBpm == targetBpm
  {
    Lyric(
      if Truthy(raw.title) then ToStr(raw.title) else UntitledTitle,
      match raw.content
      case JsString(s) => s
      case _ => ToStr(if Truthy(raw.content) then raw.content else JsString("")),
      if raw.aiAnalysis.JsString? then raw.aiAnalysis.s else "",
      StandardVariant,
      targetBpm)
  }

  /** The answer a lyric would be parsed from if it were sent back verbatim. */
  function AsRaw(l: Lyric): RawResult {
    RawResult(JsString(l.title), JsString(l.content), JsString(l.aiAnalysis))
  }

  /** Normalising is idempotent: a normalised lyric read back normalises to itself. */
  lemma NormaliseIdempotent(raw: RawResult, targetBpm: int)
    ensures Normalise(AsRaw(Normalise(raw, targetBpm)), targetBpm) == Normalise(raw, targetBpm)
  {
    var l := Normalise(raw, targetBpm);
    assert Truthy(JsString(l.title));
  }

  // ---------------------------------------------------------------------
  // Retry with exponential back-off
  // ---------------------------------------------------------------------

  function Pow2(k: nat): (r: nat)
    ensures r >= 1
  {
    if k == 0 then 1 else 2 * Pow2(k - 1)
  }

  /** The first `n` waits of a back-off that starts at `delay` and doubles each time. */
  function Backoff(delay: nat, n: nat): (waits: seq<nat>)
    ensures |waits| == n
    ensures n > 0 ==> waits[0] == delay
    ensures forall k :: 0 < k < n ==> waits[k] == 2 * waits[k - 1]
  {
    var waits := seq(n, k requires 0 <= k => delay * Pow2(k));
    assert forall k :: 0 < k < n ==> waits[k] == 2 * waits[k - 1] by {
      forall k | 0 < k < n
        ensures waits[k] == 2 * waits[k - 1]
      {
        calc {
          waits[k];
          delay * (2 * Pow2(k - 1));
          2 * (delay * Pow2(k - 1));
        }
      }
    }
    waits
  }

  /** Waiting `delay` and then backing off from twice `delay` is backing off from `delay`. */
  lemma BackoffStep(delay: nat, n: nat)
    ensures [delay] + Backoff(2 * delay, n) == Backoff(delay, n + 1)
  {
    var a, b := [delay] + Backoff(2 * delay, n), Backoff(delay, n + 1);
    forall k | 1 <= k <= n
      ensures a[k] == b[k]
    {
      calc {
        a[k];
        2 * delay * Pow2(k - 1);
        delay * (2 * Pow2(k - 1));
        b[k];
      }
    }
  }

  /** What one call of `retry` did: its result, how many attempts it made and the waits between them. */
  datatype RetryRun<T> = RetryRun(result: Result<T>, attempts: nat, waits: seq<nat>)

  /**
   * `retry(fn, retries, delay)`, where `attempt(first + k)` is the outcome of
   * the k-th call of `fn`: stop at the first success; after a failure wait,
   * double the delay and try again while retries remain; otherwise rethrow.
   */
  function Retry<T>(attempt: nat -> Result<T>, first: nat, retries: nat, delay: nat): (run: RetryRun<T>)
    ensures 1 <= run.attempts <= retries + 1
    ensures run.waits == Backoff(delay, run.attempts - 1)
    ensures run.result == attempt(first + run.attempts - 1)
    ensures forall k :: first <= k < first + run.attempts - 1 ==> attempt(k).Err?
    ensures run.result.Err? ==> run.attempts == retries + 1
    decreases retries
  {
    var outcome := attempt(first);
    if outcome.Ok? || retries == 0 then RetryRun(outcome, 1, [])
    else
      var rest := Retry(attempt, first + 1, retries - 1, 2 * delay);
      BackoffStep(delay, rest.attempts - 1);
      RetryRun(rest.result, rest.attempts + 1, [delay] + rest.waits)
  }

  /** The generator's schedule: at most four calls, waiting 2000, 4000 and 8000 ms between them. */
  lemma DefaultRetrySchedule<T>(attempt: nat -> Result<T>)
    ensures Retry(attempt, 0, 3, 2000).attempts <= 4
    ensures Retry(attempt, 0, 3, 2000).waits <= [2000, 4000, 8000]
  {
    var run := Retry(attempt, 0, 3, 2000);
    var full := Backoff(2000, 3);
    assert Pow2(1) == 2 && Pow2(2) == 4;
    assert full == [2000, 4000, 8000];
    assert run.waits == full[..run.attempts - 1];
  }
}
