/**
 * Message bodies: the seven fixed templates and the placeholder substitution that fills them.
 *
 * A template is rendered by taking the variables in order and, for each `(key, value)`,
 * replacing every `{KEY}` (the key upper-cased) by the value.
 */
module Template {
  import opened Text
  import opened Substitution

  /** The templates keyed by code. */
  const Templates: map<string, string> := map[
    "SMS_D2" := TemplateD2,
    "SMS_D1" := TemplateD1,
    "SMS_D0" := TemplateD0,
    "SMS_AFTER_TATTOO" := TemplateAfterTattoo,
    "SMS_AFTER_PIERCING" := TemplateAfterPiercing,
    "SMS_DEPOSIT_BEFORE" := TemplateDepositBefore,
    "SMS_DEPOSIT_AFTER" := TemplateDepositAfter
  ]

  // Each template is written as its text cut at the placeholders, so that the lemmas below
  // can follow the substitution piece by piece.

  const TemplateD2 := "Cześć " + "{IMIE}" + "! Wizyta " + "{DATA}" + " o " + "{GODZ}" + " w " + "{STUDIO}"
    + " – widzimy się pojutrze"
  const TemplateD1 := "Hej " + "{IMIE}" + "! Jutro " + "{DATA}" + " o " + "{GODZ}" + " w " + "{STUDIO}"
  const TemplateD0 := "To dziś, " + "{IMIE}" + "! " + "{GODZ}" + " w " + "{STUDIO}"
  const TemplateAfterTattoo := "Dzięki za wizytę " + "{IMIE}" + "! Pamiętaj o pielęgnacji tatuażu. 3 razy "
    + "dziennie smaruj poleconym kremem, regularnie przemywaj tatuaż, unikaj słońca i kąpieli w zbiornikach "
    + "wodnych. Zrezygnuj przez następne kilka dni z intensywnego wysiłku fizycznego. W razie pytań jesteśmy "
    + "do dyspozycji! (" + "{STUDIO}" + ")"
  const TemplateAfterPiercing := "Dzięki za wizytę " + "{IMIE}" + "! Pielęgnacja piercingu: sól morska "
    + "2×/dzień, bez basenu/sauny przez 6 tygodni. W razie pytań jesteśmy do dyspozycji! (" + "{STUDIO}" + ")"
  const TemplateDepositBefore := "Prosimy o zadatek " + "{KWOTA}" + "zł za wizytę " + "{DATA}" + " " + "{GODZ}"
    + " w " + "{STUDIO}"
  const TemplateDepositAfter := "{IMIE}" + ", prosimy o zadatek " + "{KWOTA}" + "zł za wizytę " + "{DATA}" + " "
    + "{GODZ}" + " w " + "{STUDIO}"

  /** `templates[code] || code`: an unknown code (or an empty template) is used as the template itself. */
  function TemplateFor(code: string): string {
    if code in Templates && Templates[code] != [] then Templates[code] else code
  }

  /** The seven codes select their fixed template; any other code is its own template. */
  lemma TemplateForSelects(code: string)
    ensures code in Templates ==> TemplateFor(code) == Templates[code] && |TemplateFor(code)| > 0
    ensures code !in Templates ==> TemplateFor(code) == code
  {
    if code in Templates {
      assert Templates[code] != [] by {
        assert code in {"SMS_D2", "SMS_D1", "SMS_D0", "SMS_AFTER_TATTOO", "SMS_AFTER_PIERCING",
                        "SMS_DEPOSIT_BEFORE", "SMS_DEPOSIT_AFTER"};
      }
    }
  }

  /** `{${key.toUpperCase()}}`. */
  function Placeholder(key: string): (p: string)
    ensures |p| == |key| + 2 && p[0] == '{' && p[|p| - 1] == '}'
  {
    "{" + ToUpperAscii(key) + "}"
  }

  predicate NoBraces(s: string) {
    forall i :: 0 <= i < |s| ==> s[i] != '{' && s[i] != '}'
  }

  /** A key without braces yields a placeholder that matches only itself. */
  lemma PlaceholderIsToken(key: string)
    requires NoBraces(key)
    ensures BraceToken(Placeholder(key))
  {
    var p := Placeholder(key);
    forall i | 0 < i < |p| - 1
      ensures p[i] != '{' && p[i] != '}'
    {
      assert p[i] == ToUpperAscii(key)[i - 1];
    }
  }

  /** The substitution loop, one variable after another in the order given. */
  function Render(template: string, vars: seq<(string, string)>): string
    decreases |vars|
  {
    if vars == [] then template
    else Render(ReplaceAll(template, Placeholder(vars[0].0), vars[0].1), vars[1..])
  }

  /** The body of a message: the code's template rendered with the variables. */
  function SmsBody(code: string, vars: seq<(string, string)>): string {
    Render(TemplateFor(code), vars)
  }

  /** `generateSMSBody`: rewrite the template once per variable. */
  method GenerateSmsBody(code: string, vars: seq<(string, string)>) returns (body: string)
    ensures body == SmsBody(code, vars)
  {
    body := if code in Templates && Templates[code] != [] then Templates[code] else code;
    for i := 0 to |vars|
      invariant Render(body, vars[i..]) == SmsBody(code, vars)
    {
      assert vars[i..][1..] == vars[i + 1..];
      var (key, value) := vars[i];
      body := ReplaceAll(body, "{" + ToUpperAscii(key) + "}", value);
    }
    assert vars[|vars|..] == [];
  }

  // ---------------------------------------------------------------------------------------
  // What rendering means: every placeholder is filled from the first variable that names it,
  // and a placeholder no variable names stays in the text.

  /** The value of the first variable whose placeholder is `t`, or `t` itself if there is none. */
  function FirstMatch(t: string, vars: seq<(string, string)>): string {
    if vars == [] then t
    else if Placeholder(vars[0].0) == t then vars[0].1
    else FirstMatch(t, vars[1..])
  }

  /** Variables whose keys and values hold no braces. */
  predicate PlainVars(vars: seq<(string, string)>) {
    forall i :: 0 <= i < |vars| ==> NoBraces(vars[i].0) && NoBraces(vars[i].1)
  }

  /** A piece of a template: a placeholder, or text without braces. */
  predicate IsPiece(x: string) {
    BraceToken(x) || NoBraces(x)
  }

  /** What a piece becomes: a placeholder its first match, text itself. */
  function Fill(x: string, vars: seq<(string, string)>): string {
    if BraceToken(x) then FirstMatch(x, vars) else x
  }

  /** No occurrence of a brace token reaches into trailing text without braces. */
  lemma {:induction false} ReplaceAllPlainSuffix(y: string, x: string, p: string, v: string)
    requires BraceToken(p) && NoBraces(x)
    ensures ReplaceAll(y + x, p, v) == ReplaceAll(y, p, v) + x
    decreases |y|
  {
    var s := y + x;
    if y == [] {
      assert s == x;
      ReplaceAllNoOpenBrace(x, p, v);
    } else if p <= s {
      assert s[|p| - 1] == '}';
      assert forall j :: |y| <= j < |s| ==> s[j] == x[j - |y|];
      if |p| > |y| {
        assert false;
      }
      assert p <= y;
      assert s[|p|..] == y[|p|..] + x;
      ReplaceAllPlainSuffix(y[|p|..], x, p, v);
    } else {
      assert p <= y ==> p <= s;
      assert s[1..] == y[1..] + x;
      ReplaceAllPlainSuffix(y[1..], x, p, v);
    }
  }

  /** One substitution treats a trailing piece on its own. */
  lemma ReplaceAllPieceSuffix(y: string, x: string, p: string, v: string)
    requires BraceToken(p) && IsPiece(x)
    ensures ReplaceAll(y + x, p, v) == ReplaceAll(y, p, v) + (if x == p then v else x)
  {
    if BraceToken(x) {
      ReplaceAllSplits(y, x, p, v);
      if x == p {
        ReplaceAllAtToken([], [], p, v);
        assert [] + p + [] == p;
      } else {
        ReplaceAllSkipsToken(x, p, v);
      }
    } else {
      ReplaceAllPlainSuffix(y, x, p, v);
      assert x != p;
    }
  }

  /** Rendering treats a trailing piece on its own. */
  lemma {:induction false} RenderPieceSuffix(y: string, x: string, vars: seq<(string, string)>)
    requires PlainVars(vars) && IsPiece(x)
    ensures Render(y + x, vars) == Render(y, vars) + Fill(x, vars)
    decreases |vars|
  {
    if vars != [] {
      var p, v := Placeholder(vars[0].0), vars[0].1;
      PlaceholderIsToken(vars[0].0);
      ReplaceAllPieceSuffix(y, x, p, v);
      assert PlainVars(vars[1..]) by {
        forall i | 0 <= i < |vars[1..]|
          ensures NoBraces(vars[1..][i].0) && NoBraces(vars[1..][i].1)
        {
          assert vars[1..][i] == vars[i + 1];
        }
      }
      assert NoBraces(v);
      var x' := if x == p then v else x;
      RenderPieceSuffix(ReplaceAll(y, p, v), x', vars[1..]);
      if x == p {
        assert !BraceToken(v) by {
          assert |v| > 0 ==> v[0] != '{';
        }
      }
    }
  }

  /** Text without an opening brace renders as itself. */
  lemma {:induction false} RenderPlain(x: string, vars: seq<(string, string)>)
    requires NoOpenBrace(x)
    ensures Render(x, vars) == x
    decreases |vars|
  {
    if vars != [] {
      ReplaceAllNoOpenBrace(x, Placeholder(vars[0].0), vars[0].1);
      RenderPlain(x, vars[1..]);
    }
  }

  /** A placeholder followed by text: the placeholder takes its first match, the text stays. */
  lemma RenderSlot(y: string, k: string, s: string, vars: seq<(string, string)>)
    requires PlainVars(vars) && BraceToken(k) && NoBraces(s)
    ensures Render(y + k + s, vars) == Render(y, vars) + FirstMatch(k, vars) + s
  {
    RenderPieceSuffix(y + k, s, vars);
    RenderPieceSuffix(y, k, vars);
    assert !BraceToken(s) by {
      assert |s| > 0 ==> s[0] != '{';
    }
  }

  /** A placeholder that none of the variables names is left in the message. */
  lemma UnmatchedPlaceholderStays(a: string, t: string, b: string, vars: seq<(string, string)>)
    requires PlainVars(vars) && BraceToken(t) && NoBraces(a) && NoBraces(b)
    requires forall i :: 0 <= i < |vars| ==> Placeholder(vars[i].0) != t
    ensures Render(a + t + b, vars) == a + t + b
  {
    RenderSlot(a, t, b, vars);
    RenderPlain(a, vars);
    NoMatchIsItself(t, vars);
  }

  lemma {:induction false} NoMatchIsItself(t: string, vars: seq<(string, string)>)
    requires forall i :: 0 <= i < |vars| ==> Placeholder(vars[i].0) != t
    ensures FirstMatch(t, vars) == t
  {
    if vars != [] {
      assert Placeholder(vars[0].0) != t;
      NoMatchIsItself(t, vars[1..]);
    }
  }

  /** Text without placeholders renders as itself, so an unknown code is sent verbatim. */
  lemma UnknownCodeIsSentVerbatim(code: string, vars: seq<(string, string)>)
    requires code !in Templates && NoOpenBrace(code)
    ensures SmsBody(code, vars) == code
  {
    RenderPlain(code, vars);
  }

  // ---------------------------------------------------------------------------------------
  // Templates of two to five placeholders between texts.

  lemma RenderTwoSlots(s0: string, k1: string, s1: string, k2: string, s2: string, vars: seq<(string, string)>)
    requires PlainVars(vars) && NoBraces(s0) && NoBraces(s1) && NoBraces(s2)
    requires BraceToken(k1) && BraceToken(k2)
    ensures Render(s0 + k1 + s1 + k2 + s2, vars)
         == s0 + FirstMatch(k1, vars) + s1 + FirstMatch(k2, vars) + s2
  {
    RenderSlot(s0 + k1 + s1, k2, s2, vars);
    RenderSlot(s0, k1, s1, vars);
    RenderPlain(s0, vars);
  }

  lemma RenderThreeSlots(s0: string, k1: string, s1: string, k2: string, s2: string, k3: string, s3: string,
                         vars: seq<(string, string)>)
    requires PlainVars(vars) && NoBraces(s0) && NoBraces(s1) && NoBraces(s2) && NoBraces(s3)
    requires BraceToken(k1) && BraceToken(k2) && BraceToken(k3)
    ensures Render(s0 + k1 + s1 + k2 + s2 + k3 + s3, vars)
         == s0 + FirstMatch(k1, vars) + s1 + FirstMatch(k2, vars) + s2 + FirstMatch(k3, vars) + s3
  {
    RenderSlot(s0 + k1 + s1 + k2 + s2, k3, s3, vars);
    RenderTwoSlots(s0, k1, s1, k2, s2, vars);
  }

  lemma RenderFourSlots(s0: string, k1: string, s1: string, k2: string, s2: string, k3: string, s3: string,
                        k4: string, s4: string, vars: seq<(string, string)>)
    requires PlainVars(vars) && NoBraces(s0) && NoBraces(s1) && NoBraces(s2) && NoBraces(s3) && NoBraces(s4)
    requires BraceToken(k1) && BraceToken(k2) && BraceToken(k3) && BraceToken(k4)
    ensures Render(s0 + k1 + s1 + k2 + s2 + k3 + s3 + k4 + s4, vars)
         == s0 + FirstMatch(k1, vars) + s1 + FirstMatch(k2, vars) + s2 + FirstMatch(k3, vars) + s3
            + FirstMatch(k4, vars) + s4
  {
    RenderSlot(s0 + k1 + s1 + k2 + s2 + k3 + s3, k4, s4, vars);
    RenderThreeSlots(s0, k1, s1, k2, s2, k3, s3, vars);
  }

  lemma RenderFiveSlots(s0: string, k1: string, s1: string, k2: string, s2: string, k3: string, s3: string,
                        k4: string, s4: string, k5: string, s5: string, vars: seq<(string, string)>)
    requires PlainVars(vars) && NoBraces(s0) && NoBraces(s1) && NoBraces(s2) && NoBraces(s3)
    requires NoBraces(s4) && NoBraces(s5)
    requires BraceToken(k1) && BraceToken(k2) && BraceToken(k3) && BraceToken(k4) && BraceToken(k5)
    ensures Render(s0 + k1 + s1 + k2 + s2 + k3 + s3 + k4 + s4 + k5 + s5, vars)
         == s0 + FirstMatch(k1, vars) + s1 + FirstMatch(k2, vars) + s2 + FirstMatch(k3, vars) + s3
            + FirstMatch(k4, vars) + s4 + FirstMatch(k5, vars) + s5
  {
    RenderSlot(s0 + k1 + s1 + k2 + s2 + k3 + s3 + k4 + s4, k5, s5, vars);
    RenderFourSlots(s0, k1, s1, k2, s2, k3, s3, k4, s4, vars);
  }

  /** Five placeholders with text between them and none around them. */
  lemma RenderOpenFiveSlots(k1: string, s1: string, k2: string, s2: string, k3: string, s3: string,
                            k4: string, s4: string, k5: string, vars: seq<(string, string)>)
    requires PlainVars(vars) && NoBraces(s1) && NoBraces(s2) && NoBraces(s3) && NoBraces(s4)
    requires BraceToken(k1) && BraceToken(k2) && BraceToken(k3) && BraceToken(k4) && BraceToken(k5)
    ensures Render(k1 + s1 + k2 + s2 + k3 + s3 + k4 + s4 + k5, vars)
         == FirstMatch(k1, vars) + s1 + FirstMatch(k2, vars) + s2 + FirstMatch(k3, vars) + s3
            + FirstMatch(k4, vars) + s4 + FirstMatch(k5, vars)
  {
    RenderPieceSuffix(k1 + s1 + k2 + s2 + k3 + s3 + k4 + s4, k5, vars);
    RenderSlot(k1 + s1 + k2 + s2 + k3 + s3, k4, s4, vars);
    RenderSlot(k1 + s1 + k2 + s2, k3, s3, vars);
    RenderSlot(k1 + s1, k2, s2, vars);
    RenderLeadingSlot(k1, s1, vars);
  }

  /** A template that opens with a placeholder. */
  lemma RenderLeadingSlot(k: string, s: string, vars: seq<(string, string)>)
    requires PlainVars(vars) && BraceToken(k) && NoBraces(s)
    ensures Render(k + s, vars) == FirstMatch(k, vars) + s
  {
    RenderSlot([], k, s, vars);
    assert [] + k + s == k + s;
    RenderPlain([], vars);
  }

  // ---------------------------------------------------------------------------------------
  // The messages the jobs send, with their variables in place.

  /** The placeholders of the keys the jobs use. */
  lemma JobPlaceholders()
    ensures Placeholder("IMIE") == "{IMIE}" && Placeholder("DATA") == "{DATA}"
    ensures Placeholder("GODZ") == "{GODZ}" && Placeholder("STUDIO") == "{STUDIO}"
    ensures Placeholder("KWOTA") == "{KWOTA}"
  {
  }

  /** The variables of the appointment and deposit reminders, in the order the jobs give them. */
  function ReminderVars(name: string, date: string, time: string, studio: string): seq<(string, string)> {
    [("IMIE", name), ("DATA", date), ("GODZ", time), ("STUDIO", studio)]
  }

  function DepositVars(name: string, date: string, time: string, studio: string, amount: string)
    : seq<(string, string)>
  {
    ReminderVars(name, date, time, studio) + [("KWOTA", amount)]
  }

  function AftercareVars(name: string, studio: string): seq<(string, string)> {
    [("IMIE", name), ("STUDIO", studio)]
  }

  /** Each reminder placeholder is filled from its own variable; `{KWOTA}` from the amount if given. */
  lemma ReminderMatches(name: string, date: string, time: string, studio: string, amount: string)
    ensures var vars := ReminderVars(name, date, time, studio);
      && FirstMatch("{IMIE}", vars) == name && FirstMatch("{DATA}", vars) == date
      && FirstMatch("{GODZ}", vars) == time && FirstMatch("{STUDIO}", vars) == studio
    ensures var vars := DepositVars(name, date, time, studio, amount);
      && FirstMatch("{IMIE}", vars) == name && FirstMatch("{DATA}", vars) == date
      && FirstMatch("{GODZ}", vars) == time && FirstMatch("{STUDIO}", vars) == studio
      && FirstMatch("{KWOTA}", vars) == amount
  {
    JobPlaceholders();
    var vars := DepositVars(name, date, time, studio, amount);
    assert vars[1..][1..] == vars[2..] && vars[2..][1..] == vars[3..] && vars[3..][1..] == vars[4..];
    var short := ReminderVars(name, date, time, studio);
    assert short[1..][1..] == short[2..] && short[2..][1..] == short[3..];
    assert FirstMatch("{GODZ}", vars[1..]) == FirstMatch("{GODZ}", vars[2..]);
    assert FirstMatch("{STUDIO}", vars[1..]) == FirstMatch("{STUDIO}", vars[2..]);
    assert FirstMatch("{STUDIO}", vars[2..]) == FirstMatch("{STUDIO}", vars[3..]);
    assert FirstMatch("{KWOTA}", vars[1..]) == FirstMatch("{KWOTA}", vars[2..]);
    assert FirstMatch("{KWOTA}", vars[2..]) == FirstMatch("{KWOTA}", vars[3..]);
    assert FirstMatch("{KWOTA}", vars[3..]) == FirstMatch("{KWOTA}", vars[4..]);
    assert FirstMatch("{GODZ}", short[1..]) == FirstMatch("{GODZ}", short[2..]);
    assert FirstMatch("{STUDIO}", short[1..]) == FirstMatch("{STUDIO}", short[2..]);
    assert FirstMatch("{STUDIO}", short[2..]) == FirstMatch("{STUDIO}", short[3..]);
  }

  /** D-2: the name, date, time and studio placeholders filled from their first matches. */
  lemma TwoDaysBeforeLayout(vars: seq<(string, string)>)
    requires PlainVars(vars)
    ensures Render(TemplateD2, vars)
         == "Cześć " + FirstMatch("{IMIE}", vars) + "! Wizyta " + FirstMatch("{DATA}", vars) + " o "
            + FirstMatch("{GODZ}", vars) + " w " + FirstMatch("{STUDIO}", vars) + " – widzimy się pojutrze"
  {
    RenderFourSlots("Cześć ", "{IMIE}", "! Wizyta ", "{DATA}", " o ", "{GODZ}", " w ", "{STUDIO}",
                    " – widzimy się pojutrze", vars);
  }

  lemma DayBeforeLayout(vars: seq<(string, string)>)
    requires PlainVars(vars)
    ensures Render(TemplateD1, vars)
         == "Hej " + FirstMatch("{IMIE}", vars) + "! Jutro " + FirstMatch("{DATA}", vars) + " o "
            + FirstMatch("{GODZ}", vars) + " w " + FirstMatch("{STUDIO}", vars)
  {
    RenderPieceSuffix("Hej " + "{IMIE}" + "! Jutro " + "{DATA}" + " o " + "{GODZ}" + " w ", "{STUDIO}", vars);
    RenderThreeSlots("Hej ", "{IMIE}", "! Jutro ", "{DATA}", " o ", "{GODZ}", " w ", vars);
  }

  lemma SameDayLayout(vars: seq<(string, string)>)
    requires PlainVars(vars)
    ensures Render(TemplateD0, vars)
         == "To dziś, " + FirstMatch("{IMIE}", vars) + "! " + FirstMatch("{GODZ}", vars) + " w "
            + FirstMatch("{STUDIO}", vars)
  {
    RenderPieceSuffix("To dziś, " + "{IMIE}" + "! " + "{GODZ}" + " w ", "{STUDIO}", vars);
    RenderTwoSlots("To dziś, ", "{IMIE}", "! ", "{GODZ}", " w ", vars);
  }

  lemma DepositBeforeLayout(vars: seq<(string, string)>)
    requires PlainVars(vars)
    ensures Render(TemplateDepositBefore, vars)
         == "Prosimy o zadatek " + FirstMatch("{KWOTA}", vars) + "zł za wizytę " + FirstMatch("{DATA}", vars) + " "
            + FirstMatch("{GODZ}", vars) + " w " + FirstMatch("{STUDIO}", vars)
  {
    RenderPieceSuffix("Prosimy o zadatek " + "{KWOTA}" + "zł za wizytę " + "{DATA}" + " " + "{GODZ}" + " w ",
                      "{STUDIO}", vars);
    RenderThreeSlots("Prosimy o zadatek ", "{KWOTA}", "zł za wizytę ", "{DATA}", " ", "{GODZ}", " w ", vars);
  }

  lemma DepositAfterLayout(vars: seq<(string, string)>)
    requires PlainVars(vars)
    ensures Render(TemplateDepositAfter, vars)
         == FirstMatch("{IMIE}", vars) + ", prosimy o zadatek " + FirstMatch("{KWOTA}", vars) + "zł za wizytę "
            + FirstMatch("{DATA}", vars) + " " + FirstMatch("{GODZ}", vars) + " w " + FirstMatch("{STUDIO}", vars)
  {
    RenderOpenFiveSlots("{IMIE}", ", prosimy o zadatek ", "{KWOTA}", "zł za wizytę ", "{DATA}", " ", "{GODZ}", " w ",
                        "{STUDIO}", vars);
  }

  /** The D-2 reminder as the job sends it. */
  lemma TwoDaysBeforeMessage(name: string, date: string, time: string, studio: string)
    requires NoBraces(name) && NoBraces(date) && NoBraces(time) && NoBraces(studio)
    ensures SmsBody("SMS_D2", ReminderVars(name, date, time, studio))
         == "Cześć " + name + "! Wizyta " + date + " o " + time + " w " + studio + " – widzimy się pojutrze"
  {
    TwoDaysBeforeLayout(ReminderVars(name, date, time, studio));
    ReminderMatches(name, date, time, studio, "");
    assert TemplateFor("SMS_D2") == TemplateD2 by { TemplateForSelects("SMS_D2"); }
  }

  /** The D-1 reminder as the job sends it. */
  lemma DayBeforeMessage(name: string, date: string, time: string, studio: string)
    requires NoBraces(name) && NoBraces(date) && NoBraces(time) && NoBraces(studio)
    ensures SmsBody("SMS_D1", ReminderVars(name, date, time, studio))
         == "Hej " + name + "! Jutro " + date + " o " + time + " w " + studio
  {
    DayBeforeLayout(ReminderVars(name, date, time, studio));
    ReminderMatches(name, date, time, studio, "");
    assert TemplateFor("SMS_D1") == TemplateD1 by { TemplateForSelects("SMS_D1"); }
  }

  /** The same-day reminder as the job sends it: the date is passed but not used. */
  lemma SameDayMessage(name: string, date: string, time: string, studio: string)
    requires NoBraces(name) && NoBraces(date) && NoBraces(time) && NoBraces(studio)
    ensures SmsBody("SMS_D0", ReminderVars(name, date, time, studio))
         == "To dziś, " + name + "! " + time + " w " + studio
  {
    SameDayLayout(ReminderVars(name, date, time, studio));
    ReminderMatches(name, date, time, studio, "");
    assert TemplateFor("SMS_D0") == TemplateD0 by { TemplateForSelects("SMS_D0"); }
  }

  /** The deposit request before the due date: the name is passed but not used. */
  lemma DepositBeforeMessage(name: string, date: string, time: string, studio: string, amount: string)
    requires NoBraces(name) && NoBraces(date) && NoBraces(time) && NoBraces(studio) && NoBraces(amount)
    ensures SmsBody("SMS_DEPOSIT_BEFORE", DepositVars(name, date, time, studio, amount))
         == "Prosimy o zadatek " + amount + "zł za wizytę " + date + " " + time + " w " + studio
  {
    var vars := DepositVars(name, date, time, studio, amount);
    assert vars == [("IMIE", name), ("DATA", date), ("GODZ", time), ("STUDIO", studio), ("KWOTA", amount)];
    DepositBeforeLayout(vars);
    ReminderMatches(name, date, time, studio, amount);
    assert TemplateFor("SMS_DEPOSIT_BEFORE") == TemplateDepositBefore by {
      TemplateForSelects("SMS_DEPOSIT_BEFORE");
    }
  }

  /** The deposit reminder after the due date. */
  lemma DepositAfterMessage(name: string, date: string, time: string, studio: string, amount: string)
    requires NoBraces(name) && NoBraces(date) && NoBraces(time) && NoBraces(studio) && NoBraces(amount)
    ensures SmsBody("SMS_DEPOSIT_AFTER", DepositVars(name, date, time, studio, amount))
         == name + ", prosimy o zadatek " + amount + "zł za wizytę " + date + " " + time + " w " + studio
  {
    var vars := DepositVars(name, date, time, studio, amount);
    assert vars == [("IMIE", name), ("DATA", date), ("GODZ", time), ("STUDIO", studio), ("KWOTA", amount)];
    DepositAfterLayout(vars);
    ReminderMatches(name, date, time, studio, amount);
    assert TemplateFor("SMS_DEPOSIT_AFTER") == TemplateDepositAfter by {
      TemplateForSelects("SMS_DEPOSIT_AFTER");
    }
  }

  /** The D-2 rendering the repository's template tests expect, written out piece by piece. */
  lemma TwoDaysBeforeExample()
    ensures SmsBody("SMS_D2", ReminderVars("Jan", "2024-12-25", "10:00", "Studio XYZ"))
         == "Cześć " + "Jan" + "! Wizyta " + "2024-12-25" + " o " + "10:00" + " w " + "Studio XYZ"
            + " – widzimy się pojutrze"
  {
    TwoDaysBeforeMessage("Jan", "2024-12-25", "10:00", "Studio XYZ");
  }

  /** The D-1 rendering the repository's template tests expect. */
  lemma DayBeforeExample()
    ensures SmsBody("SMS_D1", ReminderVars("Anna", "2024-12-24", "14:30", "Studio XYZ"))
         == "Hej " + "Anna" + "! Jutro " + "2024-12-24" + " o " + "14:30" + " w " + "Studio XYZ"
  {
    DayBeforeMessage("Anna", "2024-12-24", "14:30", "Studio XYZ");
  }
}
