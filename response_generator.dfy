/** The clinical checks around the response generator: the risk flags derived
    from the intent scores, the case-insensitive required/forbidden phrase check
    of a generated reply, the prompt's guidance, history and document sections,
    and the capped conversation history. The language model is a parameter; the
    persona text of the prompt is a constant of the object. */
module Response {
  import opened Text
  import opened Dicts

  // ---------------------------------------------------------------- clinical guidelines

  /** The intents that make a conversation high-risk, in the order they are checked. */
  const HighRiskIntents: seq<string> :=
    ["suicidal_content", "self_harm_indicator", "psychosis_indicator", "substance_abuse", "crisis_situation"]

  /** An intent counts as critical when its score exceeds this. */
  const RiskThreshold: real := 0.5

  const HistoryCap: nat := 20
  const PromptWindow: nat := 6

  datatype Guideline = Guideline(escalation: bool, required: seq<string>, forbidden: seq<string>)

  /** The `clinical_guidelines` dictionary: intent name to guideline. */
  type GuidelineTable = map<string, Guideline>

  /** The table every generator is built with. */
  const ClinicalGuidelines: GuidelineTable := map[
    "suicidal_content" := Guideline(true,
      ["I'm concerned about what you're sharing", "This is important to address",
       "Would you be willing to speak with a crisis counselor"],
      ["I understand completely", "That must be difficult", "Things will get better"]),
    "depression_indicator" := Guideline(false, [], ["Just try to be positive", "Everyone gets sad sometimes"]),
    "anxiety_indicator" := Guideline(false, [], ["Just relax", "Don't worry about it", "It's all in your head"])]

  /** Three intents have a guideline, each forbids some phrases, and only suicidal content
      escalates and requires a phrase. */
  lemma ClinicalGuidelinesShape(intent: string)
    ensures intent in ClinicalGuidelines
            <==> intent == "suicidal_content" || intent == "depression_indicator" || intent == "anxiety_indicator"
    ensures intent in ClinicalGuidelines ==> ClinicalGuidelines[intent].forbidden != []
    ensures Escalating(ClinicalGuidelines, intent) <==> intent == "suicidal_content"
    ensures intent in ClinicalGuidelines && ClinicalGuidelines[intent].required != [] <==> intent == "suicidal_content"
  {
  }

  /** `clinical_guidelines[intent].get("escalation", False)` for a listed intent. */
  predicate Escalating(table: GuidelineTable, intent: string)
  {
    intent in table && table[intent].escalation
  }

  // ---------------------------------------------------------------- _check_clinical_flags

  datatype Flags = Flags(highRisk: bool, requiresEscalation: bool, criticalIntents: seq<string>)

  const NoFlags: Flags := Flags(false, false, [])

  /** `intent in intents and float(intents[intent]) > 0.5` */
  predicate IsCritical(intents: seq<Entry>, intent: string)
  {
    HasKey(intents, intent) && Get(intents, intent, 0.0) > RiskThreshold
  }

  /** The candidates that are critical, in the candidates' order. */
  function CriticalAmong(candidates: seq<string>, intents: seq<Entry>): (r: seq<string>)
    ensures |r| <= |candidates|
    ensures forall x :: x in r <==> x in candidates && IsCritical(intents, x)
  {
    if |candidates| == 0 then []
    else
      var before := CriticalAmong(candidates[..|candidates| - 1], intents);
      var last := candidates[|candidates| - 1];
      assert candidates == candidates[..|candidates| - 1] + [last];
      if IsCritical(intents, last) then before + [last] else before
  }

  /** The flags for the intent scores of the text analysis; `None` stands for a missing
      analysis or one without `text_analysis`. An error map (`{'error': ...}`) is read like
      any other: only the listed intents it carries count, so it flags nothing unless the
      risk override has added `suicidal_content` to it. */
  function FlagsOf(table: GuidelineTable, intents: Option<seq<Entry>>): (r: Flags)
    ensures intents.None? ==> r == NoFlags
    ensures r.highRisk <==> r.criticalIntents != []
    ensures r.requiresEscalation ==> r.highRisk
    ensures forall x :: x in r.criticalIntents <==> intents.Some? && x in HighRiskIntents && IsCritical(intents.value, x)
  {
    if intents.None? then NoFlags
    else
      var critical := CriticalAmong(HighRiskIntents, intents.value);
      Flags(critical != [], exists x :: x in critical && Escalating(table, x), critical)
  }

  /** The first position of `x` in `s`. */
  function IndexOf(s: seq<string>, x: string): (i: nat)
    requires x in s
    ensures i < |s| && s[i] == x && forall j :: 0 <= j < i ==> s[j] != x
  {
    if s[0] == x then 0 else 1 + IndexOf(s[1..], x)
  }

  lemma {:induction false} IndexOfPrefix(s: seq<string>, n: nat, x: string)
    requires n <= |s| && x in s[..n]
    ensures IndexOf(s, x) == IndexOf(s[..n], x)
  {
    var i := IndexOf(s[..n], x);
    assert s[..n][i] == s[i];
    assert forall j :: 0 <= j < i ==> s[..n][j] == s[j];
  }

  /** Every entry of `r` occurs in `s`, and earlier entries of `r` occur earlier in `s`. */
  predicate InOrder(s: seq<string>, r: seq<string>)
  {
    (forall x :: x in r ==> x in s)
    && forall i, j :: 0 <= i < j < |r| ==> IndexOf(s, r[i]) < IndexOf(s, r[j])
  }

  lemma InOrderPrefix(s: seq<string>, n: nat, r: seq<string>)
    requires n <= |s| && InOrder(s[..n], r)
    ensures InOrder(s, r) && forall x :: x in r ==> IndexOf(s, x) < n
  {
    forall x | x in r
      ensures x in s && IndexOf(s, x) == IndexOf(s[..n], x)
    {
      IndexOfPrefix(s, n, x);
    }
    forall i, j | 0 <= i < j < |r|
      ensures IndexOf(s, r[i]) < IndexOf(s, r[j])
    {
      assert r[i] in r && r[j] in r;
    }
  }

  lemma InOrderSnoc(s: seq<string>, r: seq<string>, x: string)
    requires InOrder(s, r) && x in s && forall y :: y in r ==> IndexOf(s, y) < IndexOf(s, x)
    ensures InOrder(s, r + [x])
  {
    var r' := r + [x];
    forall i, j | 0 <= i < j < |r'|
      ensures IndexOf(s, r'[i]) < IndexOf(s, r'[j])
    {
      assert r'[i] == r[i] && r[i] in r;
      if j < |r| {
        assert r'[j] == r[j];
      }
    }
  }

  /** The critical intents keep the order of a candidate list without repeats. */
  lemma {:induction false} CriticalOrdered(candidates: seq<string>, intents: seq<Entry>)
    requires forall i, j :: 0 <= i < j < |candidates| ==> candidates[i] != candidates[j]
    ensures InOrder(candidates, CriticalAmong(candidates, intents))
  {
    if |candidates| > 0 {
      var n := |candidates| - 1;
      var init := candidates[..n];
      var before := CriticalAmong(init, intents);
      CriticalOrdered(init, intents);
      InOrderPrefix(candidates, n, before);
      if IsCritical(intents, candidates[n]) {
        assert IndexOf(candidates, candidates[n]) == n;
        InOrderSnoc(candidates, before, candidates[n]);
      }
    }
  }

  /** High risk exactly when some listed intent scores above 0.5. */
  lemma FlagsHighRisk(table: GuidelineTable, intents: Option<seq<Entry>>)
    ensures FlagsOf(table, intents).highRisk
            <==> intents.Some? && exists i :: 0 <= i < |HighRiskIntents| && IsCritical(intents.value, HighRiskIntents[i])
  {
    var r := FlagsOf(table, intents);
    if r.highRisk {
      var x := r.criticalIntents[0];
      assert x in r.criticalIntents;
      var i := IndexOf(HighRiskIntents, x);
    }
  }

  /** With the clinical table, escalation exactly when suicidal content scores above 0.5. */
  lemma FlagsEscalation(intents: Option<seq<Entry>>)
    ensures FlagsOf(ClinicalGuidelines, intents).requiresEscalation
            <==> intents.Some? && IsCritical(intents.value, "suicidal_content")
  {
    var r := FlagsOf(ClinicalGuidelines, intents);
    forall x | x in r.criticalIntents
      ensures Escalating(ClinicalGuidelines, x) <==> x == "suicidal_content"
    {
      ClinicalGuidelinesShape(x);
    }
    ClinicalGuidelinesShape("suicidal_content");
    assert "suicidal_content" == HighRiskIntents[0];
  }

  /** The critical intents come in the order of the high-risk list. */
  lemma FlagsOrdered(table: GuidelineTable, intents: Option<seq<Entry>>)
    ensures InOrder(HighRiskIntents, FlagsOf(table, intents).criticalIntents)
  {
    if intents.Some? {
      CriticalOrdered(HighRiskIntents, intents.value);
    }
  }

  /** `_check_clinical_flags`: the loop over the high-risk list, raising the flags as it goes. */
  method CheckClinicalFlags(table: GuidelineTable, intents: Option<seq<Entry>>) returns (flags: Flags)
    ensures flags == FlagsOf(table, intents)
  {
    flags := NoFlags;
    if intents.None? {
      return;
    }
    var d := intents.value;
    for k := 0 to |HighRiskIntents|
      invariant flags.criticalIntents == CriticalAmong(HighRiskIntents[..k], d)
      invariant flags.highRisk <==> flags.criticalIntents != []
      invariant flags.requiresEscalation <==> exists x :: x in flags.criticalIntents && Escalating(table, x)
    {
      assert HighRiskIntents[..k + 1][..k] == HighRiskIntents[..k];
      var intent := HighRiskIntents[k];
      if HasKey(d, intent) && Get(d, intent, 0.0) > RiskThreshold {
        flags := flags.(highRisk := true, criticalIntents := flags.criticalIntents + [intent]);
        if intent in table && table[intent].escalation {
          flags := flags.(requiresEscalation := true);
        }
      }
    }
    assert HighRiskIntents[..|HighRiskIntents|] == HighRiskIntents;
  }

  // ---------------------------------------------------------------- _validate_clinical_response

  datatype Validation = Validation(appropriate: bool, issues: seq<string>)

  /** `phrase.lower() in response.lower()` */
  predicate Mentions(response: string, phrase: string)
  {
    Contains(Lower(response), Lower(phrase))
  }

  predicate MentionsAny(response: string, phrases: seq<string>)
  {
    exists i :: 0 <= i < |phrases| && Mentions(response, phrases[i])
  }

  function MissingIssue(intent: string): string
  {
    "Missing required element for " + intent + " intent"
  }

  function ForbiddenIssue(intent: string, phrase: string): string
  {
    "Contains inappropriate phrase for " + intent + " intent: '" + phrase + "'"
  }

  /** One issue per forbidden phrase the response contains, in the phrases' order. */
  function ForbiddenIssues(intent: string, phrases: seq<string>, response: string): (r: seq<string>)
    ensures |r| <= |phrases|
    ensures r == [] <==> forall i :: 0 <= i < |phrases| ==> !Mentions(response, phrases[i])
    ensures forall m :: m in r ==> exists i :: 0 <= i < |phrases| && Mentions(response, phrases[i]) && m == ForbiddenIssue(intent, phrases[i])
  {
    if |phrases| == 0 then []
    else
      var n := |phrases| - 1;
      var before := ForbiddenIssues(intent, phrases[..n], response);
      assert forall i :: 0 <= i < n ==> phrases[..n][i] == phrases[i];
      if Mentions(response, phrases[n]) then before + [ForbiddenIssue(intent, phrases[n])] else before
  }

  /** The issues one critical intent's guideline raises against the response. */
  function GuidelineIssues(intent: string, g: Guideline, response: string): seq<string>
  {
    (if g.required != [] && !MentionsAny(response, g.required) then [MissingIssue(intent)] else [])
    + ForbiddenIssues(intent, g.forbidden, response)
  }

  /** The issues over a list of critical intents, skipping intents without a guideline. */
  function IssuesFor(table: GuidelineTable, critical: seq<string>, response: string): seq<string>
  {
    if |critical| == 0 then []
    else
      var n := |critical| - 1;
      IssuesFor(table, critical[..n], response)
      + (if critical[n] in table then GuidelineIssues(critical[n], table[critical[n]], response) else [])
  }

  /** What the validation returns: no check at all unless the flags say high risk, and
      appropriate exactly when no issue was raised. */
  function ValidationOf(table: GuidelineTable, response: string, flags: Flags): (v: Validation)
    ensures !flags.highRisk ==> v == Validation(true, [])
    ensures v.appropriate <==> v.issues == []
  {
    if !flags.highRisk then Validation(true, [])
    else
      var issues := IssuesFor(table, flags.criticalIntents, response);
      Validation(issues == [], issues)
  }

  /** A response complies with a guideline when it holds one of the required phrases (if
      there are any) and none of the forbidden ones, compared without case. */
  predicate Complies(g: Guideline, response: string)
  {
    (g.required == [] || MentionsAny(response, g.required))
    && forall i :: 0 <= i < |g.forbidden| ==> !Mentions(response, g.forbidden[i])
  }

  lemma GuidelineIssuesNone(intent: string, g: Guideline, response: string)
    ensures GuidelineIssues(intent, g, response) == [] <==> Complies(g, response)
  {
  }

  lemma {:induction false} IssuesForNone(table: GuidelineTable, critical: seq<string>, response: string)
    ensures IssuesFor(table, critical, response) == [] <==>
              forall x :: x in critical && x in table ==> Complies(table[x], response)
  {
    if |critical| > 0 {
      var n := |critical| - 1;
      IssuesForNone(table, critical[..n], response);
      assert critical == critical[..n] + [critical[n]];
      if critical[n] in table {
        GuidelineIssuesNone(critical[n], table[critical[n]], response);
      }
    }
  }

  /** The validation's verdict against an independent reading of the guidelines: a
      high-risk response is appropriate exactly when it complies with the guideline of
      every critical intent that has one. */
  lemma ValidationAppropriate(table: GuidelineTable, response: string, flags: Flags)
    ensures ValidationOf(table, response, flags).appropriate <==>
              !flags.highRisk
              || forall x :: x in flags.criticalIntents && x in table ==> Complies(table[x], response)
  {
    IssuesForNone(table, flags.criticalIntents, response);
  }

  /** The number of issues a guideline raises: one for a missing required phrase and one per
      forbidden phrase present. */
  lemma {:induction false} ForbiddenIssuesCount(intent: string, phrases: seq<string>, response: string)
    ensures |ForbiddenIssues(intent, phrases, response)| == |set i | 0 <= i < |phrases| && Mentions(response, phrases[i])|
  {
    if |phrases| > 0 {
      var n := |phrases| - 1;
      ForbiddenIssuesCount(intent, phrases[..n], response);
      PresentSnoc(phrases, response);
    }
  }

  /** The positions of the phrases the response mentions. */
  function Present(phrases: seq<string>, response: string): set<int>
  {
    set i | 0 <= i < |phrases| && Mentions(response, phrases[i])
  }

  /** Adding a phrase adds its position to `Present` exactly when it is mentioned. */
  lemma PresentSnoc(phrases: seq<string>, response: string)
    requires |phrases| > 0
    ensures var n := |phrases| - 1;
            |Present(phrases, response)|
            == |Present(phrases[..n], response)| + (if Mentions(response, phrases[n]) then 1 else 0)
  {
    var n := |phrases| - 1;
    var before := Present(phrases[..n], response);
    assert forall i :: 0 <= i < n ==> phrases[..n][i] == phrases[i];
    assert n !in before;
    if Mentions(response, phrases[n]) {
      assert Present(phrases, response) == before + {n};
    } else {
      assert Present(phrases, response) == before;
    }
  }

  /** One required-phrase scan: is any phrase in the lowered response? */
  method FindRequired(lowered: string, phrases: seq<string>) returns (found: bool)
    ensures found <==> exists i :: 0 <= i < |phrases| && Contains(lowered, Lower(phrases[i]))
  {
    found := false;
    var j := 0;
    while j < |phrases| && !found
      invariant 0 <= j <= |phrases|
      invariant found <==> exists i :: 0 <= i < j && Contains(lowered, Lower(phrases[i]))
    {
      found := Contains(lowered, Lower(phrases[j]));
      j := j + 1;
    }
  }

  /** The checks of one critical intent's guideline against the lowered response. */
  method CheckGuideline(intent: string, g: Guideline, response: string, lowered: string) returns (issues: seq<string>)
    requires lowered == Lower(response)
    ensures issues == GuidelineIssues(intent, g, response)
  {
    issues := [];
    if g.required != [] {
      var found := FindRequired(lowered, g.required);
      if !found {
        issues := [MissingIssue(intent)];
      }
    }
    var forbidden := ScanForbidden(intent, g.forbidden, response, lowered);
    issues := issues + forbidden;
  }

  /** The forbidden-phrase loop: one issue per phrase found. */
  method ScanForbidden(intent: string, phrases: seq<string>, response: string, lowered: string) returns (issues: seq<string>)
    requires lowered == Lower(response)
    ensures issues == ForbiddenIssues(intent, phrases, response)
  {
    issues := [];
    for j := 0 to |phrases|
      invariant issues == ForbiddenIssues(intent, phrases[..j], response)
    {
      assert phrases[..j + 1][..j] == phrases[..j];
      if Contains(lowered, Lower(phrases[j])) {
        issues := issues + [ForbiddenIssue(intent, phrases[j])];
      }
    }
    assert phrases[..|phrases|] == phrases;
  }

  /** `_validate_clinical_response`: for each critical intent with a guideline, the
      required-phrase scan (stopping at the first hit) and the forbidden-phrase scan. */
  method ValidateClinicalResponse(table: GuidelineTable, response: string, flags: Flags) returns (v: Validation)
    ensures v == ValidationOf(table, response, flags)
  {
    v := Validation(true, []);
    if !flags.highRisk {
      return;
    }
    var lowered := Lower(response);
    var critical := flags.criticalIntents;
    for k := 0 to |critical|
      invariant v.issues == IssuesFor(table, critical[..k], response)
      invariant v.appropriate <==> v.issues == []
    {
      assert critical[..k + 1][..k] == critical[..k];
      var intent := critical[k];
      if intent in table {
        var raised := CheckGuideline(intent, table[intent], response, lowered);
        var issues := v.issues + raised;
        v := Validation(issues == [], issues);
      }
    }
    assert critical[..|critical|] == critical;
  }

  // ---------------------------------------------------------------- conversation history

  datatype Role = User | Assistant
  datatype Message = Message(role: Role, content: string)

  /** `h[-n:]` for a positive `n`: the newest `n` entries, or all of them. */
  function Last<T>(h: seq<T>, n: nat): (r: seq<T>)
    requires n > 0
    ensures |r| == if |h| < n then |h| else n
    ensures r == h[|h| - |r|..]
  {
    if |h| > n then h[|h| - n..] else h
  }

  /** After a successful turn the history ends with the user's message and then the reply,
      preceded by the newest 18 messages of before, and holds at most 20. */
  lemma HistoryAfterTurn(h: seq<Message>, user: Message, reply: Message)
    ensures var r := Last(h + [user, reply], HistoryCap);
            && |r| <= HistoryCap
            && |r| >= 2 && r[|r| - 2] == user && r[|r| - 1] == reply
            && r[..|r| - 2] == Last(h, HistoryCap - 2)
  {
    var all := h + [user, reply];
    var r := Last(all, HistoryCap);
    assert r[..|r| - 2] == h[|h| - (|r| - 2)..];
  }

  /** Messages older than the newest `n` do not reach `Last(_, n)`. */
  lemma LastIgnoresOlder<T>(older: seq<T>, h: seq<T>, n: nat)
    requires n > 0 && |h| >= n
    ensures Last(older + h, n) == Last(h, n)
  {
    assert (older + h)[|older + h| - n..] == h[|h| - n..];
  }

  // ---------------------------------------------------------------- _build_clinical_prompt

  datatype DocumentContext = DocumentContext(medicalHistory: seq<string>, medications: seq<string>,
                                             diagnoses: seq<string>, symptoms: seq<string>)

  const RiskPreamble: string :=
    "\n\nThis conversation contains potential risk indicators. Your response must:"
    + "\n- Express appropriate concern without causing alarm"
    + "\n- Validate feelings without reinforcing harmful thoughts"
    + "\n- Encourage seeking professional support"

  /** The guidance lines one critical intent adds: its required phrases, if any, and its
      forbidden phrases; nothing for an intent without a guideline. */
  function GuidanceFor(table: GuidelineTable, intent: string): (r: string)
    ensures r != [] <==> intent in table && (table[intent].required != [] || table[intent].forbidden != [])
  {
    if intent !in table then ""
    else
      var g := table[intent];
      (if g.required != [] then "\n- Include one of these elements in your response: " + Join(g.required, ", ") else "")
      + (if g.forbidden != [] then "\n- Avoid these phrases: " + Join(g.forbidden, ", ") else "")
  }

  function GuidanceLines(table: GuidelineTable, critical: seq<string>): string
  {
    if |critical| == 0 then ""
    else GuidanceLines(table, critical[..|critical| - 1]) + GuidanceFor(table, critical[|critical| - 1])
  }

  function RiskGuidance(table: GuidelineTable, flags: Flags): string
  {
    if flags.highRisk then RiskPreamble + GuidanceLines(table, flags.criticalIntents) else ""
  }

  function MessageLine(m: Message): string
  {
    (if m.role == User then "User" else "Assistant") + ": " + m.content + "\n"
  }

  function HistoryLines(w: seq<Message>): string
  {
    if |w| == 0 then "" else HistoryLines(w[..|w| - 1]) + MessageLine(w[|w| - 1])
  }

  /** The history section: the newest six messages, one line each, or nothing for an empty history. */
  function HistorySection(h: seq<Message>): string
  {
    if h == [] then "" else "CONVERSATION HISTORY:\n" + HistoryLines(Last(h, PromptWindow)) + "\n"
  }

  function ListLine(title: string, items: seq<string>): string
  {
    if items == [] then "" else title + Join(items, ", ") + "\n"
  }

  function DocumentSection(doc: Option<DocumentContext>): string
  {
    match doc
    case None => ""
    case Some(d) =>
      "\nRELEVANT MEDICAL DOCUMENT INFORMATION:\n"
      + ListLine("Medical History: ", d.medicalHistory) + ListLine("Medications: ", d.medications)
      + ListLine("Known Conditions: ", d.diagnoses) + ListLine("Reported Symptoms: ", d.symptoms) + "\n"
  }

  function EmotionSection(emotionContext: string): string
  {
    if emotionContext != "" then "EMOTIONAL CONTEXT:\n" + emotionContext + "\n\n" else ""
  }

  /** The whole prompt: persona, risk guidance, emotion context, history window, document
      context and the user's turn, which always closes it. */
  function Prompt(table: GuidelineTable, persona: string, userInput: string, emotionContext: string, flags: Flags,
                  history: seq<Message>, doc: Option<DocumentContext>): (r: string)
    ensures |Turn(userInput)| <= |r| && r[|r| - |Turn(userInput)|..] == Turn(userInput)
  {
    var head := persona + RiskGuidance(table, flags) + Context(emotionContext, history, doc);
    SuffixOfAppend(head, Turn(userInput));
    head + Turn(userInput)
  }

  /** The sections between the system prompt and the user's turn. */
  function Context(emotionContext: string, history: seq<Message>, doc: Option<DocumentContext>): string
  {
    "\n\n" + EmotionSection(emotionContext) + HistorySection(history) + DocumentSection(doc)
  }

  function Turn(userInput: string): string
  {
    "User: " + userInput + "\n\nAssistant: "
  }

  lemma SuffixOfAppend(a: string, b: string)
    ensures (a + b)[|a + b| - |b|..] == b
  {
  }

  /** The history lines list the messages in order: the lines of a split history are the
      lines of its two parts, one after the other. */
  lemma {:induction false} HistoryLinesAppend(a: seq<Message>, b: seq<Message>)
    ensures HistoryLines(a + b) == HistoryLines(a) + HistoryLines(b)
  {
    if |b| == 0 {
      assert a + b == a;
    } else {
      var n := |b| - 1;
      var ab := a + b;
      assert ab[..|ab| - 1] == a + b[..n];
      assert ab[|ab| - 1] == b[n];
      HistoryLinesAppend(a, b[..n]);
      var line := MessageLine(b[n]);
      assert HistoryLines(ab) == HistoryLines(a + b[..n]) + line;
      assert HistoryLines(b) == HistoryLines(b[..n]) + line;
      AppendAssoc(HistoryLines(a), HistoryLines(b[..n]), line);
    }
  }

  /** Only the newest six messages reach the prompt: older ones change nothing. */
  lemma PromptIgnoresOlderMessages(table: GuidelineTable, persona: string, userInput: string, emotionContext: string, flags: Flags,
                                   older: seq<Message>, history: seq<Message>, doc: Option<DocumentContext>)
    requires |history| >= PromptWindow
    ensures Prompt(table, persona, userInput, emotionContext, flags, older + history, doc)
            == Prompt(table, persona, userInput, emotionContext, flags, history, doc)
  {
    LastIgnoresOlder(older, history, PromptWindow);
  }

  /** `p` occurs in `s` at position `i`. */
  predicate At(s: string, p: string, i: nat)
  {
    i + |p| <= |s| && s[i..i + |p|] == p
  }

  lemma AtRight(a: string, b: string)
    ensures At(a + b, b, |a|)
  {
    assert (a + b)[|a|..|a| + |b|] == b;
  }

  lemma AtLeft(a: string, b: string, p: string, i: nat)
    requires At(a, p, i)
    ensures At(a + b, p, i)
  {
    assert (a + b)[i..i + |p|] == a[i..i + |p|];
  }

  /** An occurrence inside the middle part is an occurrence in the whole. */
  lemma ContainsInMiddle(a: string, b: string, c: string, p: string, i: nat)
    requires At(b, p, i)
    ensures Contains(a + b + c, p)
  {
    assert (a + b)[|a| + i..|a| + i + |p|] == b[i..i + |p|];
    AtLeft(a + b, c, p, |a| + i);
    ContainsAt(a + b + c, p, |a| + i);
  }

  /** Where the guidance of a critical intent sits in the guidance lines. */
  lemma {:induction false} GuidanceLinesHold(table: GuidelineTable, critical: seq<string>, x: string) returns (i: nat)
    requires x in critical
    ensures At(GuidanceLines(table, critical), GuidanceFor(table, x), i)
  {
    var n := |critical| - 1;
    var pre := GuidanceLines(table, critical[..n]);
    var last := GuidanceFor(table, critical[n]);
    assert GuidanceLines(table, critical) == pre + last;
    if critical[n] == x {
      i := |pre|;
      AtRight(pre, last);
    } else {
      assert x in critical[..n];
      i := GuidanceLinesHold(table, critical[..n], x);
      AtLeft(pre, last, GuidanceFor(table, x), i);
    }
  }

  /** A high-risk prompt carries the guidance of every critical intent. */
  lemma PromptCarriesGuidance(table: GuidelineTable, persona: string, userInput: string, emotionContext: string, flags: Flags,
                              history: seq<Message>, doc: Option<DocumentContext>, x: string)
    requires flags.highRisk && x in flags.criticalIntents
    ensures Contains(Prompt(table, persona, userInput, emotionContext, flags, history, doc), GuidanceFor(table, x))
  {
    var i := GuidanceLinesHold(table, flags.criticalIntents, x);
    HighRiskPromptShape(table, persona, userInput, emotionContext, flags, history, doc);
    ContainsInMiddle(persona + RiskPreamble, GuidanceLines(table, flags.criticalIntents),
                     Context(emotionContext, history, doc) + Turn(userInput), GuidanceFor(table, x), i);
  }

  lemma HighRiskPromptShape(table: GuidelineTable, persona: string, userInput: string, emotionContext: string, flags: Flags,
                            history: seq<Message>, doc: Option<DocumentContext>)
    requires flags.highRisk
    ensures Prompt(table, persona, userInput, emotionContext, flags, history, doc)
            == (persona + RiskPreamble) + GuidanceLines(table, flags.criticalIntents)
               + (Context(emotionContext, history, doc) + Turn(userInput))
  {
    var lines := GuidanceLines(table, flags.criticalIntents);
    var context, turn := Context(emotionContext, history, doc), Turn(userInput);
    assert RiskGuidance(table, flags) == RiskPreamble + lines;
    Regroup(persona, RiskPreamble, lines, context, turn);
  }

  lemma Regroup(a: string, b: string, c: string, d: string, e: string)
    ensures a + (b + c) + d + e == (a + b) + c + (d + e)
  {
  }

  /** The loop over the critical intents, appending each one's guidance to `text`. */
  method AppendGuidance(text: string, table: GuidelineTable, critical: seq<string>) returns (r: string)
    ensures r == text + GuidanceLines(table, critical)
  {
    r := text;
    for k := 0 to |critical|
      invariant r == text + GuidanceLines(table, critical[..k])
    {
      GuidanceLinesSnoc(table, critical, k);
      AppendAssoc(text, GuidanceLines(table, critical[..k]), GuidanceFor(table, critical[k]));
      r := r + GuidanceFor(table, critical[k]);
    }
    assert critical[..|critical|] == critical;
  }

  lemma GuidanceLinesSnoc(table: GuidelineTable, critical: seq<string>, k: nat)
    requires k < |critical|
    ensures GuidanceLines(table, critical[..k + 1]) == GuidanceLines(table, critical[..k]) + GuidanceFor(table, critical[k])
  {
    assert critical[..k + 1][..k] == critical[..k];
  }

  lemma AppendAssoc(a: string, b: string, c: string)
    ensures a + b + c == a + (b + c)
  {
  }

  // ---------------------------------------------------------------- the generator object

  /** What the language model answers for a prompt: the reply's text, or the message of the
      exception it raised. */
  datatype Generation = Generated(text: string) | Raised(message: string)

  datatype Reply =
    | ReplyError(response: string, message: string)
    | ReplySuccess(response: string, validation: Validation, highRiskIntents: seq<string>, flags: Flags)

  const UnavailableText: string :=
    "I apologize, but I'm currently unable to generate a response. Please check the API configuration."
  const UnavailableMessage: string := "Gemini model not initialized"
  const TroubleText: string :=
    "I apologize, but I'm having trouble formulating a response right now. Let's continue our conversation."

  class ResponseGenerator {
    const persona: string
    const guidelines: GuidelineTable
    const model: Option<string -> Generation>
    var conversationHistory: seq<Message>
    var documentContext: Option<DocumentContext>

    ghost predicate Valid()
      reads this
    {
      |conversationHistory| <= HistoryCap
    }

    /** `model` is `None` when no API key was found or the model could not be created. */
    constructor (persona: string, model: Option<string -> Generation>)
      ensures Valid() && this.persona == persona && this.model == model && guidelines == ClinicalGuidelines
      ensures conversationHistory == [] && documentContext == None
    {
      this.persona := persona;
      guidelines := ClinicalGuidelines;
      this.model := model;
      conversationHistory := [];
      documentContext := None;
    }

    /** The persona followed, on a high-risk turn, by the risk preamble and the loop over
        the critical intents' guidance. */
    method SystemPrompt(flags: Flags) returns (system: string)
      ensures system == persona + RiskGuidance(guidelines, flags)
    {
      system := persona;
      if flags.highRisk {
        system := AppendGuidance(system + RiskPreamble, guidelines, flags.criticalIntents);
      }
    }

    /** The history loop over the newest six messages. */
    method HistoryText() returns (section: string)
      ensures section == HistorySection(conversationHistory)
    {
      section := "";
      if conversationHistory != [] {
        var window := Last(conversationHistory, PromptWindow);
        var lines := "";
        for k := 0 to |window|
          invariant lines == HistoryLines(window[..k])
        {
          assert window[..k + 1][..k] == window[..k];
          lines := lines + MessageLine(window[k]);
        }
        assert window[..|window|] == window;
        section := "CONVERSATION HISTORY:\n" + lines + "\n";
      }
    }

    /** `_build_clinical_prompt` */
    method BuildClinicalPrompt(userInput: string, emotionContext: string, flags: Flags) returns (prompt: string)
      ensures prompt == Prompt(guidelines, persona, userInput, emotionContext, flags, conversationHistory, documentContext)
    {
      var system := SystemPrompt(flags);
      var history := HistoryText();
      prompt := system + ("\n\n" + EmotionSection(emotionContext) + history + DocumentSection(documentContext))
                + ("User: " + userInput + "\n\nAssistant: ");
    }

    /** `generate_response`. `emotionContext` is the formatted emotion summary and `intents`
        the text analysis' intent scores (`None` without one). */
    method GenerateResponse(userInput: string, emotionContext: string, intents: Option<seq<Entry>>) returns (r: Reply)
      requires Valid()
      modifies this`conversationHistory
      ensures Valid()
      ensures model.None? ==> r == ReplyError(UnavailableText, UnavailableMessage)
                              && conversationHistory == old(conversationHistory)
      ensures model.Some? ==>
                var flags := FlagsOf(guidelines, intents);
                var g := model.value(Prompt(guidelines, persona, userInput, emotionContext, flags, old(conversationHistory), documentContext));
                if g.Raised? then
                  r == ReplyError(TroubleText, g.message) && conversationHistory == old(conversationHistory)
                else
                  r == ReplySuccess(g.text, ValidationOf(guidelines, g.text, flags), [], flags)
                  && conversationHistory
                     == Last(old(conversationHistory) + [Message(User, userInput), Message(Assistant, g.text)], HistoryCap)
    {
      if model.None? {
        return ReplyError(UnavailableText, UnavailableMessage);
      }
      var flags := CheckClinicalFlags(guidelines, intents);
      var prompt := BuildClinicalPrompt(userInput, emotionContext, flags);
      var g := model.value(prompt);
      if g.Raised? {
        return ReplyError(TroubleText, g.message);
      }
      var validation := ValidateClinicalResponse(guidelines, g.text, flags);
      var history := conversationHistory + [Message(User, userInput), Message(Assistant, g.text)];
      if |history| > HistoryCap {
        history := history[|history| - HistoryCap..];
      }
      conversationHistory := history;
      r := ReplySuccess(g.text, validation, [], flags);
    }

    /** `reset_conversation` */
    method ResetConversation()
      modifies this`conversationHistory
      ensures Valid() && conversationHistory == []
    {
      conversationHistory := [];
    }

    /** `set_document_context`; `None` stands for a missing or empty document dictionary. */
    method SetDocumentContext(doc: Option<DocumentContext>)
      modifies this`documentContext
      ensures documentContext == doc
    {
      documentContext := doc;
    }
  }
}
