/**
 * The landing page's typewriter (`TypingCode`): six lines of code typed one
 * character per tick, an empty line appearing in one tick, and the per-word
 * colour classification applied to typed non-comment lines.
 *
 * The random 30–80 ms delay is not modelled: a tick is the effect's next step,
 * whenever it fires. `displayedLines` is modelled with one slot per source line,
 * `None` for a slot not yet written (a hole of the JavaScript array).
 */
module Typing {
  import opened Results

  datatype CodeLine = CodeLine(line: nat, text: string, indent: nat, comment: bool)

  const Script: seq<CodeLine> := [
    CodeLine(1, "import { AI } from '@chlorocode/core';", 0, false),
    CodeLine(2, "", 0, false),
    CodeLine(3, "const agent = new AI();", 0, false),
    CodeLine(4, "", 0, false),
    CodeLine(5, "// Auto-optimizing your workflow...", 0, true),
    CodeLine(6, "await agent.optimize('production');", 0, false)]

  datatype Typewriter = Typewriter(displayed: seq<Option<CodeLine>>, lineIndex: nat, charIndex: nat)

  function Initial(lines: seq<CodeLine>): Typewriter {
    Typewriter(seq(|lines|, _ => None), 0, 0)
  }

  /**
   * One step of the typing effect: nothing once every line is done; an empty
   * line is copied into its slot (if that slot is still empty) and the next
   * line starts; otherwise the slot shows one more character, and the line is
   * left after its last character.
   */
  function Step(lines: seq<CodeLine>, t: Typewriter): Typewriter
    requires |t.displayed| == |lines|
  {
    if t.lineIndex >= |lines| then t
    else
      var current := lines[t.lineIndex];
      if current.text == "" then
        var displayed := if t.displayed[t.lineIndex].None? then t.displayed[t.lineIndex := Some(current)] else t.displayed;
        Typewriter(displayed, t.lineIndex + 1, 0)
      else
        var textSoFar := current.text[..if t.charIndex + 1 <= |current.text| then t.charIndex + 1 else |current.text|];
        var displayed := t.displayed[t.lineIndex := Some(current.(text := textSoFar))];
        if t.charIndex < |current.text| - 1 then Typewriter(displayed, t.lineIndex, t.charIndex + 1)
        else Typewriter(displayed, t.lineIndex + 1, 0)
  }

  function Steps(lines: seq<CodeLine>, t: Typewriter, n: nat): (r: Typewriter)
    requires |t.displayed| == |lines|
    ensures |r.displayed| == |lines|
    decreases n
  {
    if n == 0 then t
    else
      StepKeepsLength(lines, t);
      Steps(lines, Step(lines, t), n - 1)
  }

  lemma StepKeepsLength(lines: seq<CodeLine>, t: Typewriter)
    requires |t.displayed| == |lines|
    ensures |Step(lines, t).displayed| == |lines|
  {
  }

  /** What a slot renders: its typed text, or "" while it is absent (`displayedLine?.text || ""`). */
  function Rendered(t: Typewriter, i: nat): string
    requires i < |t.displayed|
  {
    if t.displayed[i].Some? then t.displayed[i].value.text else ""
  }

  /** The ticks a line takes: one per character, and one for an empty line. */
  function Ticks(line: CodeLine): nat {
    if line.text == "" then 1 else |line.text|
  }

  function TicksFrom(lines: seq<CodeLine>, i: nat): nat
    decreases |lines| - i
  {
    if i >= |lines| then 0 else Ticks(lines[i]) + TicksFrom(lines, i + 1)
  }

  /** The ticks still to run. */
  function Remaining(lines: seq<CodeLine>, t: Typewriter): nat {
    if t.lineIndex >= |lines| then 0
    else
      var ticks := Ticks(lines[t.lineIndex]);
      (if t.charIndex < ticks then ticks - t.charIndex else 0) + TicksFrom(lines, t.lineIndex + 1)
  }

  /**
   * The typewriter's invariant: the lines before the current one are shown in
   * full, the ones after it not at all, and the current one shows the
   * characters typed so far (none yet while the char index is 0).
   */
  ghost predicate Consistent(lines: seq<CodeLine>, t: Typewriter) {
    |t.displayed| == |lines| && t.lineIndex <= |lines|
    && (forall i :: 0 <= i < t.lineIndex ==> t.displayed[i] == Some(lines[i]))
    && (forall i :: t.lineIndex < i < |lines| ==> t.displayed[i] == None)
    && (t.lineIndex < |lines| ==>
          t.charIndex < Ticks(lines[t.lineIndex])
          && t.displayed[t.lineIndex] == if t.charIndex == 0 then None
             else Some(lines[t.lineIndex].(text := lines[t.lineIndex].text[..t.charIndex])))
  }

  lemma InitialConsistent(lines: seq<CodeLine>)
    ensures Consistent(lines, Initial(lines))
  {
  }

  /** Once every line is done, a step changes nothing. */
  lemma StepDoneNoop(lines: seq<CodeLine>, t: Typewriter)
    requires |t.displayed| == |lines| && t.lineIndex >= |lines|
    ensures Step(lines, t) == t
  {
  }

  /** A step keeps the invariant. */
  lemma StepKeepsConsistent(lines: seq<CodeLine>, t: Typewriter)
    requires Consistent(lines, t)
    ensures Consistent(lines, Step(lines, t))
  {
    if t.lineIndex < |lines| {
      var current := lines[t.lineIndex];
      var t' := Step(lines, t);
      if current.text != "" && t.charIndex == |current.text| - 1 {
        assert current.text[..t.charIndex + 1] == current.text;
        assert current.(text := current.text) == current;
      }
    }
  }

  /**
   * A step writes only the current slot, copying its line number, indent and
   * comment flag from the source; the line index never goes back, and the
   * char index returns to 0 exactly when the line index moves on.
   */
  lemma StepFrame(lines: seq<CodeLine>, t: Typewriter)
    requires |t.displayed| == |lines|
    ensures var t' := Step(lines, t);
      (forall i :: 0 <= i < |lines| && i != t.lineIndex ==> t'.displayed[i] == t.displayed[i])
      && (t.lineIndex < |lines| && t'.displayed[t.lineIndex].Some? ==>
            var shown := t'.displayed[t.lineIndex].value;
            (t.displayed[t.lineIndex].Some? && shown == t.displayed[t.lineIndex].value)
            || (shown.line == lines[t.lineIndex].line && shown.indent == lines[t.lineIndex].indent
                && shown.comment == lines[t.lineIndex].comment))
      && t.lineIndex <= t'.lineIndex
      && (t'.lineIndex == t.lineIndex + 1 ==> t'.charIndex == 0)
      && (t.lineIndex < |lines| ==> t'.lineIndex == t.lineIndex + 1 || t'.charIndex == t.charIndex + 1)
  {
  }

  /** Every shown line is its source line with a prefix of the source text. */
  lemma ShownIsPrefix(lines: seq<CodeLine>, t: Typewriter, i: nat)
    requires Consistent(lines, t) && i < |lines|
    ensures t.displayed[i].Some? ==>
      t.displayed[i].value == lines[i].(text := t.displayed[i].value.text)
      && t.displayed[i].value.text <= lines[i].text
    ensures Rendered(t, i) <= lines[i].text
  {
  }

  lemma TicksFromPositive(lines: seq<CodeLine>, i: nat)
    ensures i < |lines| ==> TicksFrom(lines, i) >= 1
  {
  }

  /** Every step before the end takes exactly one tick off what remains. */
  lemma StepProgress(lines: seq<CodeLine>, t: Typewriter)
    requires Consistent(lines, t) && t.lineIndex < |lines|
    ensures Remaining(lines, Step(lines, t)) == Remaining(lines, t) - 1
    ensures Remaining(lines, t) >= 1
  {
  }

  /** Nothing remains exactly when every line is done. */
  lemma RemainingZeroIff(lines: seq<CodeLine>, t: Typewriter)
    requires Consistent(lines, t)
    ensures Remaining(lines, t) == 0 <==> t.lineIndex == |lines|
  {
    if t.lineIndex < |lines| {
      TicksFromPositive(lines, t.lineIndex + 1);
    }
  }

  lemma {:induction false} StepsKeepConsistent(lines: seq<CodeLine>, t: Typewriter, n: nat)
    requires Consistent(lines, t) && n <= Remaining(lines, t)
    ensures Consistent(lines, Steps(lines, t, n))
    ensures Remaining(lines, Steps(lines, t, n)) == Remaining(lines, t) - n
    decreases n
  {
    if n > 0 {
      RemainingZeroIff(lines, t);
      StepKeepsConsistent(lines, t);
      StepProgress(lines, t);
      StepsKeepConsistent(lines, Step(lines, t), n - 1);
    }
  }

  /** After its remaining ticks the typewriter is done and every line renders its source text in full. */
  lemma Finishes(lines: seq<CodeLine>, t: Typewriter)
    requires Consistent(lines, t)
    ensures var done := Steps(lines, t, Remaining(lines, t));
      done.lineIndex == |lines|
      && forall i :: 0 <= i < |lines| ==> done.displayed[i] == Some(lines[i]) && Rendered(done, i) == lines[i].text
  {
    RemainingZeroIff(lines, t);
    var done := Steps(lines, t, Remaining(lines, t));
    StepsKeepConsistent(lines, t, Remaining(lines, t));
    RemainingZeroIff(lines, done);
  }

  // ---------------------------------------------------------------------------
  // Word colours
  // ---------------------------------------------------------------------------

  datatype Colour = Purple | Yellow | Green | Blue | Plain

  const Keywords: seq<string> := ["import", "from", "const", "new", "await"]
  const Names: seq<string> := ["AI", "agent"]

  /** The colour of one word, the first rule that applies winning. */
  function Classify(word: string): Colour {
    if word in Keywords then Purple
    else if word in Names then Yellow
    else if |word| > 0 && word[0] == '\'' then Green
    else if word == "optimize" then Blue
    else Plain
  }

  /** Green exactly for the words starting with a quote: no keyword or name starts with one. */
  lemma GreenIffQuoted(word: string)
    ensures Classify(word) == Green <==> |word| > 0 && word[0] == '\''
  {
    if |word| > 0 && word[0] == '\'' {
      assert forall k :: k in Keywords + Names ==> k[0] != '\'';
      assert word !in Keywords + Names;
    }
  }

  /** Each colour other than plain picks out exactly its own words. */
  lemma ColourClasses(word: string)
    ensures Classify(word) == Purple <==> word in Keywords
    ensures Classify(word) == Yellow <==> word in Names
    ensures Classify(word) == Blue <==> word == "optimize"
    ensures Classify(word) == Plain <==> word !in Keywords + Names && word != "optimize" && !(|word| > 0 && word[0] == '\'')
  {
    assert forall k :: k in Keywords ==> k !in Names;
    assert "optimize" !in Keywords + Names;
    GreenIffQuoted(word);
  }

  class TypingCode {
    /** The lines the component types: always `Script`. */
    const lines: seq<CodeLine>
    var displayed: seq<Option<CodeLine>>
    var lineIndex: nat
    var charIndex: nat

    function State(): Typewriter
      reads this
    {
      Typewriter(displayed, lineIndex, charIndex)
    }

    ghost predicate Valid()
      reads this
    {
      Consistent(lines, State())
    }

    constructor ()
      ensures Valid() && lines == Script && State() == Initial(Script)
    {
      lines := Script;
      displayed, lineIndex, charIndex := seq(|Script|, _ => None), 0, 0;
    }

    /** One run of the typing effect. */
    method Tick()
      requires Valid()
      modifies this
      ensures Valid()
      ensures State() == Step(lines, old(State()))
    {
      StepKeepsConsistent(lines, State());
      if lineIndex >= |lines| {
        return;
      }
      var current := lines[lineIndex];
      if current.text == "" {
        if displayed[lineIndex].None? {
          displayed := displayed[lineIndex := Some(current)];
        }
        lineIndex, charIndex := lineIndex + 1, 0;
        return;
      }
      var end := if charIndex + 1 <= |current.text| then charIndex + 1 else |current.text|;
      displayed := displayed[lineIndex := Some(current.(text := current.text[..end]))];
      if charIndex < |current.text| - 1 {
        charIndex := charIndex + 1;
      } else {
        lineIndex, charIndex := lineIndex + 1, 0;
      }
    }
  }
}
