/** The instruction text of `generateHiringPost` (services/geminiService.ts):
    the free-text prompt verbatim, or a text assembled from the form. */
module GeminiPrompt {
  import opened Wrappers
  import opened JsString
  import opened JobTypes

  // The long texts are written as concatenations of short literals, which
  // lets the verifier see which characters they hold.
  const HeaderLine: string := "Create a professional " + "hiring post image with " + "the following details:"
  const ContactLabel: string := "Contact: "
  const Closing: string := Closing1 + Closing2 + Closing3 + Closing4 + Closing5 + Closing6 + Closing7
  const Closing1: string := "Design a modern, "
  const Closing2: string := "professional hiring "
  const Closing3: string := "post with clear "
  const Closing4: string := "typography, attractive "
  const Closing5: string := "layout, and include "
  const Closing6: string := "\"WE'RE HIRING\" as a "
  const Closing7: string := "prominent header."

  /** The labelled fields in the order the builder visits them. */
  function LabelledFields(d: JobDetails): seq<(string, string)> {
    [("Job Title: ", d.jobTitle), ("Company: ", d.companyName), ("Location: ", d.location),
     ("Department: ", d.department), ("Experience Required: ", d.experience),
     ("Responsibilities: ", d.responsibilities), ("Required Skills: ", d.skills)]
  }

  /** The line a field contributes: its label and value, or nothing when empty. */
  function FieldLine(f: (string, string)): seq<string> {
    if f.1 != "" then [f.0 + f.1] else []
  }

  function PresentLines(fields: seq<(string, string)>): seq<string> {
    if fields == [] then [] else FieldLine(fields[0]) + PresentLines(fields[1..])
  }

  /** `[email, mobileNo].filter(Boolean)`. */
  function ContactParts(d: JobDetails): seq<string> {
    (if Truthy(d.email) then [d.email.value] else [])
    + (if Truthy(d.mobileNo) then [d.mobileNo.value] else [])
  }

  function ContactLines(d: JobDetails): seq<string> {
    if Truthy(d.email) || Truthy(d.mobileNo) then [ContactLabel + Join(ContactParts(d), " | ")] else []
  }

  /** Every line between the header and the closing directive. */
  function BodyLines(d: JobDetails): seq<string> {
    PresentLines(LabelledFields(d)) + ContactLines(d)
  }

  function ColourSentence(d: JobDetails): string {
    if Truthy(d.primaryColor) && Truthy(d.secondaryColor) then
      " Use colors: primary " + d.primaryColor.value + ", secondary " + d.secondaryColor.value + "."
    else ""
  }

  function ClosingLine(d: JobDetails): string {
    Closing + ColourSentence(d)
  }

  /** Each line followed by a line break. */
  function Terminated(lines: seq<string>): string {
    if lines == [] then "" else lines[0] + "\n" + Terminated(lines[1..])
  }

  /** The form-mode instruction: header, body lines, a blank line, the directive. */
  function FormInstruction(d: JobDetails): string {
    HeaderLine + "\n" + Terminated(BodyLines(d)) + "\n" + ClosingLine(d)
  }

  /** The instruction `generateHiringPost` hands to the adapter. */
  function Instruction(d: JobDetails, mode: InputMode, userPrompt: string): string {
    match mode
    case Prompt => userPrompt
    case Form => FormInstruction(d)
  }

  /** The accumulation of `prompt` through the chain of `if`s. */
  method BuildPrompt(details: JobDetails, mode: InputMode, userPrompt: string) returns (prompt: string)
    ensures mode == Prompt ==> prompt == userPrompt
    ensures mode == Form ==> prompt == FormInstruction(details)
  {
    prompt := "";
    if mode == Prompt {
      prompt := userPrompt;
    } else {
      prompt := BuildFormPrompt(details);
    }
  }

  method BuildFormPrompt(details: JobDetails) returns (prompt: string)
    ensures prompt == FormInstruction(details)
  {
    prompt := HeaderLine + "\n";
    prompt := AppendBody(prompt, details);
    ghost var body := prompt;
    prompt := AppendClosing(prompt, details);
    FormInstructionShape(details, body);
  }

  /** The labelled fields and the contact line, each on a line of its own. */
  method AppendBody(prompt: string, details: JobDetails) returns (p: string)
    ensures p == prompt + Terminated(BodyLines(details))
  {
    var p1 := AppendFieldLines(prompt, details);
    p := AppendContact(p1, details);
    TwoSteps(prompt, p1, p, PresentLines(LabelledFields(details)), ContactLines(details));
  }

  lemma TwoSteps(p0: string, p1: string, p2: string, a: seq<string>, b: seq<string>)
    requires p1 == p0 + Terminated(a) && p2 == p1 + Terminated(b)
    ensures p2 == p0 + Terminated(a + b)
  {
    TerminatedAppend(a, b);
  }

  lemma FormInstructionShape(d: JobDetails, body: string)
    requires body == HeaderLine + "\n" + Terminated(BodyLines(d))
    ensures FormInstruction(d) == body + "\n" + ClosingLine(d)
  {
  }

  /** The blank line, the fixed directive and the optional colour sentence. */
  method AppendClosing(prompt: string, details: JobDetails) returns (p: string)
    ensures p == prompt + "\n" + ClosingLine(details)
  {
    p := prompt + "\n" + Closing;
    p := AppendColours(p, details);
  }

  /** `if (email || mobileNo) { prompt += `Contact: ${...}\n` }`. */
  method AppendContact(prompt: string, details: JobDetails) returns (p: string)
    ensures p == prompt + Terminated(ContactLines(details))
  {
    p := prompt;
    if Truthy(details.email) || Truthy(details.mobileNo) {
      var line := ContactLabel + Join(ContactParts(details), " | ");
      p := p + line + "\n";
      assert [line][1..] == [];
    }
  }

  /** `if (primaryColor && secondaryColor) { prompt += ` Use colors: ...` }`. */
  method AppendColours(prompt: string, details: JobDetails) returns (p: string)
    ensures p == prompt + ColourSentence(details)
  {
    p := prompt;
    if Truthy(details.primaryColor) && Truthy(details.secondaryColor) {
      p := p + " Use colors: primary " + details.primaryColor.value
        + ", secondary " + details.secondaryColor.value + ".";
    }
  }

  /** The seven labelled-field steps, in the source's order. */
  method AppendFieldLines(prompt: string, details: JobDetails) returns (p: string)
    ensures p == prompt + Terminated(PresentLines(LabelledFields(details)))
  {
    var p1 := AppendField(prompt, "Job Title: ", details.jobTitle);
    var p2 := AppendField(p1, "Company: ", details.companyName);
    var p3 := AppendField(p2, "Location: ", details.location);
    var p4 := AppendField(p3, "Department: ", details.department);
    var p5 := AppendField(p4, "Experience Required: ", details.experience);
    var p6 := AppendField(p5, "Responsibilities: ", details.responsibilities);
    p := AppendField(p6, "Required Skills: ", details.skills);
    SevenSteps(prompt, p1, p2, p3, p4, p5, p6, p, LabelledFields(details));
  }

  /** One `if (field) { prompt += `Label: ${field}\n` }` step. */
  method AppendField(prompt: string, name: string, value: string) returns (p: string)
    ensures p == prompt + FieldText((name, value))
    ensures value == "" <==> p == prompt
  {
    p := prompt;
    if value != "" {
      p := p + name + value + "\n";
      assert |p| > |prompt|;
      var one := [name + value];
      assert FieldText((name, value)) == name + value + "\n" by {
        assert FieldLine((name, value)) == one;
        assert one[1..] == [];
        assert Terminated(one) == one[0] + "\n" + Terminated([]);
      }
    } else {
      assert FieldLine((name, value)) == [];
      assert prompt + "" == prompt;
    }
  }

  /** The text of one field's step. */
  function FieldText(f: (string, string)): string {
    Terminated(FieldLine(f))
  }

  /** Seven steps in a row append the lines of the seven fields. */
  lemma SevenSteps(p0: string, p1: string, p2: string, p3: string, p4: string, p5: string,
                   p6: string, p7: string, fs: seq<(string, string)>)
    requires |fs| == 7
    requires p1 == p0 + FieldText(fs[0]) && p2 == p1 + FieldText(fs[1])
    requires p3 == p2 + FieldText(fs[2]) && p4 == p3 + FieldText(fs[3])
    requires p5 == p4 + FieldText(fs[4]) && p6 == p5 + FieldText(fs[5])
    requires p7 == p6 + FieldText(fs[6])
    ensures p7 == p0 + Terminated(PresentLines(fs))
  {
    var ps := [p0, p1, p2, p3, p4, p5, p6, p7];
    assert forall k :: 0 <= k < |fs| ==> ps[k + 1] == ps[k] + FieldText(fs[k]);
    Chain(ps, fs);
  }

  /** A chain of steps, one per field, appends the lines of all the fields. */
  lemma {:induction false} Chain(ps: seq<string>, fs: seq<(string, string)>)
    requires |ps| == |fs| + 1
    requires forall k :: 0 <= k < |fs| ==> ps[k + 1] == ps[k] + FieldText(fs[k])
    ensures ps[|fs|] == ps[0] + Terminated(PresentLines(fs))
  {
    if fs == [] {
      assert ps[0] + "" == ps[0];
    } else {
      var rest := ps[1..];
      assert forall k :: 0 <= k < |fs[1..]| ==> rest[k + 1] == rest[k] + FieldText(fs[1..][k]) by {
        forall k | 0 <= k < |fs[1..]|
          ensures rest[k + 1] == rest[k] + FieldText(fs[1..][k])
        {
          assert rest[k + 1] == ps[k + 2] && rest[k] == ps[k + 1] && fs[1..][k] == fs[k + 1];
        }
      }
      Chain(rest, fs[1..]);
      TerminatedAppend(FieldLine(fs[0]), PresentLines(fs[1..]));
      assert rest[|fs[1..]|] == ps[|fs|];
    }
  }

  lemma {:induction false} TerminatedAppend(a: seq<string>, b: seq<string>)
    ensures Terminated(a + b) == Terminated(a) + Terminated(b)
  {
    if a == [] {
      assert a + b == b;
    } else {
      assert (a + b)[0] == a[0];
      assert (a + b)[1..] == a[1..] + b;
      TerminatedAppend(a[1..], b);
      calc {
        Terminated(a + b);
        a[0] + "\n" + Terminated(a[1..] + b);
        a[0] + "\n" + (Terminated(a[1..]) + Terminated(b));
        Terminated(a) + Terminated(b);
      }
    }
  }

  lemma {:induction false} PresentLinesAppend(a: seq<(string, string)>, b: seq<(string, string)>)
    ensures PresentLines(a + b) == PresentLines(a) + PresentLines(b)
  {
    if a == [] {
      assert a + b == b;
    } else {
      assert (a + b)[0] == a[0];
      assert (a + b)[1..] == a[1..] + b;
      PresentLinesAppend(a[1..], b);
    }
  }

  // ---- What the instruction is made of ----

  /** No value that reaches the instruction carries a line break. */
  predicate SingleLineValues(d: JobDetails) {
    (forall k :: 0 <= k < |LabelledFields(d)| ==> '\n' !in LabelledFields(d)[k].1)
    && (d.email.Some? ==> '\n' !in d.email.value)
    && (d.mobileNo.Some? ==> '\n' !in d.mobileNo.value)
    && (d.primaryColor.Some? ==> '\n' !in d.primaryColor.value)
    && (d.secondaryColor.Some? ==> '\n' !in d.secondaryColor.value)
  }

  predicate NoLineBreak(lines: seq<string>) {
    forall k :: 0 <= k < |lines| ==> '\n' !in lines[k]
  }

  /** Read line by line, a form-mode instruction is the header, one line per
      present field and the contact line, a blank line, and the closing
      directive with the colour sentence. */
  lemma FormInstructionLines(d: JobDetails)
    requires SingleLineValues(d)
    ensures Split(FormInstruction(d), '\n') == [HeaderLine] + BodyLines(d) + ["", ClosingLine(d)]
  {
    var lines := [HeaderLine] + BodyLines(d) + [""];
    var c := ClosingLine(d);
    FormAsTerminated(d);
    LinesSingle(d);
    ClosingLineSingle(d);
    SplitTerminated(lines, c);
    SplitWhole(c, '\n');
    assert lines + [c] == [HeaderLine] + BodyLines(d) + ["", c];
  }

  lemma ClosingLineSingle(d: JobDetails)
    requires SingleLineValues(d)
    ensures '\n' !in ClosingLine(d)
  {
    ClosingSingle();
    ColourSentenceSingle(d);
    NoBreakAppend(Closing, ColourSentence(d));
  }

  lemma ClosingSingle()
    ensures '\n' !in Closing
  {
    ClosingHeadSingle();
    ClosingMiddleSingle();
    ClosingTailSingle();
    NoBreakAppend(Closing1, Closing2);
    NoBreakAppend(Closing1 + Closing2, Closing3);
    NoBreakAppend(Closing1 + Closing2 + Closing3, Closing4);
    NoBreakAppend(Closing1 + Closing2 + Closing3 + Closing4, Closing5);
    NoBreakAppend(Closing1 + Closing2 + Closing3 + Closing4 + Closing5, Closing6);
    NoBreakAppend(Closing1 + Closing2 + Closing3 + Closing4 + Closing5 + Closing6, Closing7);
  }

  lemma ClosingHeadSingle()
    ensures '\n' !in Closing1 && '\n' !in Closing2
  {
  }

  lemma ClosingMiddleSingle()
    ensures '\n' !in Closing3 && '\n' !in Closing4
  {
  }

  lemma ClosingTailSingle()
    ensures '\n' !in Closing5 && '\n' !in Closing6 && '\n' !in Closing7
  {
  }

  lemma ColourSentenceSingle(d: JobDetails)
    requires SingleLineValues(d)
    ensures '\n' !in ColourSentence(d)
  {
  }

  lemma NoBreakAppend(a: string, b: string)
    requires '\n' !in a && '\n' !in b
    ensures '\n' !in a + b
  {
  }

  lemma FormAsTerminated(d: JobDetails)
    ensures FormInstruction(d) == Terminated([HeaderLine] + BodyLines(d) + [""]) + ClosingLine(d)
  {
    HeaderBodyBlank(HeaderLine, BodyLines(d), ClosingLine(d));
  }

  lemma HeaderBodyBlank(h: string, body: seq<string>, c: string)
    ensures h + "\n" + Terminated(body) + "\n" + c == Terminated([h] + body + [""]) + c
  {
    var one: seq<string> := [h];
    var blank: seq<string> := [""];
    assert one[1..] == [] && blank[1..] == [];
    TerminatedAppend(one + body, blank);
    TerminatedAppend(one, body);
  }

  lemma LinesSingle(d: JobDetails)
    requires SingleLineValues(d)
    ensures NoLineBreak([HeaderLine] + BodyLines(d) + [""])
  {
    BodyLinesSingle(d);
    assert '\n' !in HeaderLine;
  }

  lemma BodyLinesSingle(d: JobDetails)
    requires SingleLineValues(d)
    ensures NoLineBreak(BodyLines(d))
  {
    var fs := LabelledFields(d);
    assert forall k :: 0 <= k < |fs| ==> '\n' !in fs[k].0;
    PresentLinesSingle(fs);
    var parts := ContactParts(d);
    assert '\n' !in Join(parts, " | ");
  }

  lemma {:induction false} PresentLinesSingle(fs: seq<(string, string)>)
    requires forall k :: 0 <= k < |fs| ==> '\n' !in fs[k].0 && '\n' !in fs[k].1
    ensures NoLineBreak(PresentLines(fs))
  {
    if fs != [] {
      PresentLinesSingle(fs[1..]);
    }
  }

  /** A run of terminated single-line lines splits back into those lines. */
  lemma {:induction false} SplitTerminated(lines: seq<string>, rest: string)
    requires NoLineBreak(lines)
    ensures Split(Terminated(lines) + rest, '\n') == lines + Split(rest, '\n')
  {
    if lines != [] {
      var tail := Terminated(lines[1..]) + rest;
      assert Terminated(lines) + rest == lines[0] + ['\n'] + tail;
      assert '\n' !in lines[0];
      SplitFirst(lines[0], '\n', tail);
      assert NoLineBreak(lines[1..]) by {
        forall k | 0 <= k < |lines[1..]| ensures '\n' !in lines[1..][k] {
          assert lines[1..][k] == lines[k + 1];
        }
      }
      SplitTerminated(lines[1..], rest);
      ConsAgain(lines, Split(rest, '\n'));
    } else {
      assert Terminated(lines) + rest == rest;
    }
  }

  lemma ConsAgain<T>(xs: seq<T>, ys: seq<T>)
    requires xs != []
    ensures [xs[0]] + (xs[1..] + ys) == xs + ys
  {
    assert xs == [xs[0]] + xs[1..];
  }

  // ---- One line per present field ----

  /** The lines that begin with `prefix`, in order. */
  function LinesStartingWith(lines: seq<string>, prefix: string): seq<string> {
    if lines == [] then []
    else (if StartsWith(lines[0], prefix) then [lines[0]] else []) + LinesStartingWith(lines[1..], prefix)
  }

  /** Two labels that no line can begin with both of. */
  predicate Distinguishable(a: string, b: string) {
    |a| > 3 && |b| > 3 && (a[0] != b[0] || a[3] != b[3])
  }

  lemma NotStartsWith(a: string, v: string, b: string)
    requires Distinguishable(a, b)
    ensures !StartsWith(a + v, b)
  {
  }

  lemma {:induction false} LinesStartingWithAppend(a: seq<string>, b: seq<string>, prefix: string)
    ensures LinesStartingWith(a + b, prefix) == LinesStartingWith(a, prefix) + LinesStartingWith(b, prefix)
  {
    if a == [] {
      assert a + b == b;
    } else {
      assert (a + b)[0] == a[0];
      assert (a + b)[1..] == a[1..] + b;
      LinesStartingWithAppend(a[1..], b, prefix);
    }
  }

  /** The fields whose label is `name`. */
  function FieldsNamed(fs: seq<(string, string)>, name: string): seq<(string, string)> {
    if fs == [] then []
    else (if fs[0].0 == name then [fs[0]] else []) + FieldsNamed(fs[1..], name)
  }

  lemma {:induction false} NoneNamed(fs: seq<(string, string)>, name: string)
    requires forall j :: 0 <= j < |fs| ==> Distinguishable(fs[j].0, name)
    ensures FieldsNamed(fs, name) == []
  {
    if fs != [] {
      NoneNamed(fs[1..], name);
    }
  }

  lemma {:induction false} NamedOnce(fs: seq<(string, string)>, k: nat)
    requires k < |fs|
    requires forall j :: 0 <= j < |fs| && j != k ==> Distinguishable(fs[j].0, fs[k].0)
    ensures FieldsNamed(fs, fs[k].0) == [fs[k]]
  {
    if k == 0 {
      NoneNamed(fs[1..], fs[0].0);
    } else {
      assert fs[1..][k - 1] == fs[k];
      NamedOnce(fs[1..], k - 1);
    }
  }

  lemma {:induction false} SelectPresent(fs: seq<(string, string)>, name: string)
    requires forall j :: 0 <= j < |fs| ==> fs[j].0 == name || Distinguishable(fs[j].0, name)
    ensures LinesStartingWith(PresentLines(fs), name) == PresentLines(FieldsNamed(fs, name))
  {
    if fs != [] {
      var f := fs[0];
      SelectPresent(fs[1..], name);
      LinesStartingWithAppend(FieldLine(f), PresentLines(fs[1..]), name);
      if f.0 == name {
        if f.1 != "" {
          var one := [f.0 + f.1];
          assert one[1..] == [];
        }
        assert LinesStartingWith(FieldLine(f), name) == FieldLine(f);
        var one: seq<(string, string)> := [f];
        PresentLinesAppend(one, FieldsNamed(fs[1..], name));
        assert one[1..] == [];
      } else {
        assert Distinguishable(f.0, name);
        if f.1 != "" {
          NotStartsWith(f.0, f.1, name);
          var one := [f.0 + f.1];
          assert one[1..] == [];
        }
        assert LinesStartingWith(FieldLine(f), name) == [];
        assert f.0 != name;
        assert FieldsNamed(fs, name) == FieldsNamed(fs[1..], name);
      }
    }
  }

  /** Among the body lines, the ones carrying field `k`'s label are exactly
      its labelled line when the field is non-empty, and none when it is empty. */
  lemma FieldLineIffPresent(d: JobDetails, k: nat)
    requires k < |LabelledFields(d)|
    ensures var f := LabelledFields(d)[k];
      LinesStartingWith(BodyLines(d), f.0) == if f.1 != "" then [f.0 + f.1] else []
  {
    var fs := LabelledFields(d);
    var f := fs[k];
    NamedOnce(fs, k);
    SelectPresent(fs, f.0);
    var one: seq<(string, string)> := [f];
    assert one[1..] == [];
    assert PresentLines(one) == FieldLine(f);
    LinesStartingWithAppend(PresentLines(fs), ContactLines(d), f.0);
    if ContactLines(d) != [] {
      NotStartsWith(ContactLabel, Join(ContactParts(d), " | "), f.0);
    }
  }

  /** The body holds a contact line exactly when the email or the phone is
      non-empty; it joins the non-empty ones with " | ". */
  lemma ContactLineIffPresent(d: JobDetails)
    ensures LinesStartingWith(BodyLines(d), ContactLabel) ==
      if Truthy(d.email) && Truthy(d.mobileNo) then [ContactLabel + (d.email.value + " | " + d.mobileNo.value)]
      else if Truthy(d.email) then [ContactLabel + d.email.value]
      else if Truthy(d.mobileNo) then [ContactLabel + d.mobileNo.value]
      else []
  {
    var fs := LabelledFields(d);
    NoneNamed(fs, ContactLabel);
    SelectPresent(fs, ContactLabel);
    LinesStartingWithAppend(PresentLines(fs), ContactLines(d), ContactLabel);
    var lines := ContactLines(d);
    if lines != [] {
      assert StartsWith(lines[0], ContactLabel);
      assert lines[1..] == [];
    }
    assert LinesStartingWith(lines, ContactLabel) == lines;
    if Truthy(d.email) && Truthy(d.mobileNo) {
      var parts := ContactParts(d);
      assert parts == [d.email.value, d.mobileNo.value];
      assert parts[1..] == [d.mobileNo.value];
      assert Join(parts, " | ") == d.email.value + " | " + d.mobileNo.value;
    }
  }

  /** The colour sentence is there exactly when both colours are non-empty,
      and the "WE'RE HIRING" directive always is. */
  lemma ClosingLineColours(d: JobDetails)
    ensures StartsWith(ClosingLine(d), Closing)
    ensures ClosingLine(d) != Closing <==> Truthy(d.primaryColor) && Truthy(d.secondaryColor)
    ensures Truthy(d.primaryColor) && Truthy(d.secondaryColor) ==>
      ClosingLine(d) == Closing + " Use colors: primary " + d.primaryColor.value
        + ", secondary " + d.secondaryColor.value + "."
  {
    assert ClosingLine(d)[..|Closing|] == Closing;
  }

  /** A form with only the job title filled in gives one labelled line. */
  lemma OnlyTitle(d: JobDetails)
    requires d.jobTitle != ""
    requires d.companyName == d.location == d.department == d.experience == d.responsibilities == d.skills == ""
    requires !Truthy(d.email) && !Truthy(d.mobileNo)
    requires !Truthy(d.primaryColor) || !Truthy(d.secondaryColor)
    ensures FormInstruction(d) == HeaderLine + "\n" + ("Job Title: " + d.jobTitle + "\n") + "\n" + Closing
  {
    var fs := LabelledFields(d);
    EmptyTail(fs, 1);
    var body := BodyLines(d);
    assert body == ["Job Title: " + d.jobTitle];
    assert body[1..] == [];
    assert Terminated(body) == "Job Title: " + d.jobTitle + "\n";
    assert ClosingLine(d) == Closing;
  }

  lemma {:induction false} EmptyTail(fs: seq<(string, string)>, j: nat)
    requires j <= |fs|
    requires forall i :: j <= i < |fs| ==> fs[i].1 == ""
    ensures PresentLines(fs[j..]) == []
    decreases |fs| - j
  {
    if j < |fs| {
      EmptyTail(fs, j + 1);
      assert fs[j..][1..] == fs[j + 1..];
    }
  }
}
