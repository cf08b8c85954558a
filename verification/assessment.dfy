/** The assessment page (src/pages/AssessmentPage.tsx): a countdown shown as
    minutes and two-digit seconds, and a question card with Previous and Next
    buttons and selectable options. */
module Assessment {
  import opened Common
  import opened Strings

  /** The initial time on the clock: one hour, in seconds. */
  const InitialTimeLeft: int := 3600

  /** `n.toString()` for any integer. */
  function IntToString(n: int): (s: string)
    ensures n >= 0 ==> s == Decimal(n)
    ensures n < 0 ==> s == "-" + Decimal(-n)
  {
    if n >= 0 then Decimal(n) else "-" + Decimal(-n)
  }

  /** Reads a `toString` text back: an optional '-' and then decimal digits. */
  function ParseSigned(s: string): Option<int> {
    if s != [] && s[0] == '-' && AllDigits(s[1..]) then Some(-(ParseDecimal(s[1..]) as int))
    else if AllDigits(s) then Some(ParseDecimal(s))
    else None
  }

  /** The text starts with '-' exactly for a negative number, and reads back as it. */
  lemma IntToStringRoundTrip(n: int)
    ensures var s := IntToString(n); s != [] && (s[0] == '-' <==> n < 0)
    ensures ParseSigned(IntToString(n)) == Some(n)
  {
    var s := IntToString(n);
    if n >= 0 {
      DecimalRoundTrip(n);
      assert s[0] != '-';
    } else {
      DecimalRoundTrip(-n);
      assert s[1..] == Decimal(-n);
    }
  }

  /** JavaScript's `a % 60`: the remainder takes the sign of the dividend. */
  function JsRemainder60(a: int): (r: int)
    ensures a >= 0 ==> r == a % 60
    ensures a < 0 ==> -60 < r <= 0 && (a - r) % 60 == 0
  {
    if a >= 0 then a % 60 else -((-a) % 60)
  }

  /** `formatTime`: `Math.floor(seconds / 60)`, a colon, and `seconds % 60` padded on
      the left with '0' to two characters. Dafny's `/` by a positive number rounds
      down, as `Math.floor` does. */
  function FormatTime(seconds: int): (t: string)
    ensures seconds >= 0 ==>
              t == Decimal(seconds / 60) + ":" + PadStart(Decimal(seconds % 60), 2, '0')
  {
    var minutes := seconds / 60;
    var remaining := JsRemainder60(seconds);
    IntToString(minutes) + ":" + PadStart(IntToString(remaining), 2, '0')
  }

  /** The seconds field of a non-negative time is always two digits. */
  lemma {:induction false} SecondsFieldTwoDigits(r: nat)
    requires r < 60
    ensures var f := PadStart(Decimal(r), 2, '0');
            |f| == 2 && AllDigits(f) && ParseDecimal(f) == r
  {
    var f := PadStart(Decimal(r), 2, '0');
    DecimalRoundTrip(r);
    if r < 10 {
      assert f == ['0'] + Decimal(r);
      assert f[..1] == ['0'];
      assert ParseDecimal(f[..1]) == 0 by {
        assert f[..1][..0] == [];
      }
    } else {
      assert |Decimal(r)| != 1;
      assert |Decimal(r)| == 2 by {
        assert Decimal(r) == Decimal(r / 10) + [DigitChar(r % 10)];
      }
    }
  }

  /** The position of the first ':' in `t`, or `|t|`. */
  function ColonIndex(t: string): (i: nat)
    ensures i <= |t|
    ensures i < |t| ==> t[i] == ':'
    ensures forall j :: 0 <= j < i ==> t[j] != ':'
  {
    if t == [] || t[0] == ':' then 0 else 1 + ColonIndex(t[1..])
  }

  /** Reads a "minutes:seconds" text with a two-digit seconds field back into seconds. */
  function ParseClock(t: string): (r: Option<int>)
    ensures r.Some? ==> r.value >= 0
  {
    var i := ColonIndex(t);
    if i == |t| then None
    else
      var minutes := t[..i];
      var secs := t[i + 1..];
      if minutes != [] && AllDigits(minutes) && |secs| == 2 && AllDigits(secs)
      then Some(ParseDecimal(minutes) * 60 + ParseDecimal(secs))
      else None
  }

  lemma {:induction false} ColonAfterDigits(d: string, rest: string)
    requires AllDigits(d)
    ensures ColonIndex(d + ":" + rest) == |d|
    decreases |d|
  {
    if d != [] {
      assert (d + ":" + rest)[1..] == d[1..] + ":" + rest;
      ColonAfterDigits(d[1..], rest);
    }
  }

  lemma ParseClockOfFields(m: string, f: string)
    requires m != [] && AllDigits(m) && |f| == 2 && AllDigits(f)
    ensures ParseClock(m + ":" + f) == Some(ParseDecimal(m) * 60 + ParseDecimal(f))
  {
    var t := m + ":" + f;
    ColonAfterDigits(m, f);
    assert t[..|m|] == m;
    assert t[|m| + 1..] == f;
    ParseClockAtColon(t, m, f);
  }

  lemma ParseClockAtColon(t: string, m: string, f: string)
    requires ColonIndex(t) == |m| < |t| && t[..|m|] == m && t[|m| + 1..] == f
    requires m != [] && AllDigits(m) && |f| == 2 && AllDigits(f)
    ensures ParseClock(t) == Some(ParseDecimal(m) * 60 + ParseDecimal(f))
  {
  }

  /** For any non-negative time, the displayed text reads back as the same number of
      seconds: minutes times 60 plus a seconds field below 60. */
  lemma FormatTimeRoundTrip(seconds: int)
    requires seconds >= 0
    ensures ParseClock(FormatTime(seconds)) == Some(seconds)
  {
    var q, r := seconds / 60, seconds % 60;
    var m := Decimal(q);
    var f := PadStart(Decimal(r), 2, '0');
    SecondsFieldTwoDigits(r);
    DecimalRoundTrip(q);
    MinutesAndSeconds(seconds, ParseDecimal(m), ParseDecimal(f));
    ClockRoundTrip(FormatTime(seconds), m, f, seconds);
  }

  lemma ClockRoundTrip(t: string, m: string, f: string, seconds: int)
    requires t == m + ":" + f
    requires m != [] && AllDigits(m) && |f| == 2 && AllDigits(f)
    requires ParseDecimal(m) * 60 + ParseDecimal(f) == seconds
    ensures ParseClock(t) == Some(seconds)
  {
    ParseClockOfFields(m, f);
  }

  lemma MinutesAndSeconds(seconds: int, minutes: int, secs: int)
    requires seconds >= 0 && minutes == seconds / 60 && secs == seconds % 60
    ensures minutes * 60 + secs == seconds
  {
  }

  /** Minutes are not capped at 59: the initial hour shows as "60:00". */
  lemma InitialTimeShown(t: int)
    requires t == InitialTimeLeft
    ensures FormatTime(t) == "60:00"
  {
    assert t / 60 == 60 && t % 60 == 0;
    assert Decimal(60) == "60" by {
      assert Decimal(6) == "6";
    }
    assert PadStart(Decimal(0), 2, '0') == "00";
  }

  /** A negative time keeps JavaScript's signs: -65 seconds shows as "-2:-5". */
  lemma NegativeTimeShown(t: int)
    requires t == -65
    ensures FormatTime(t) == "-2:-5"
  {
    assert t / 60 == -2;
    assert JsRemainder60(t) == -5;
    assert IntToString(-2) == "-2";
    assert IntToString(-5) == "-5";
    assert PadStart("-5", 2, '0') == "-5";
  }

  datatype Question = Question(id: int, text: string, code: Option<string>, options: seq<string>,
                               correctAnswer: nat)

  /** The questions the page loads for every assessment. */
  const LoadedQuestions: seq<Question> := [
    Question(1, "Which component is responsible for capturing long-range dependencies in a transformer architecture?",
             None, ["Feed-forward network", "Self-attention mechanism", "Layer normalization", "Positional encoding"], 1),
    Question(2, "What is the purpose of the scaling factor in scaled dot-product attention?",
             Some("attention = softmax(QK^T / sqrt(d_k))V"),
             ["To normalize the attention weights", "To prevent vanishing gradients",
              "To stabilize the dot products", "To reduce computational complexity"], 2)
  ]

  class AssessmentSession {
    var currentQuestion: int
    var selectedAnswer: Option<nat>
    var timeLeft: int
    var title: string
    var questions: seq<Question>

    /** While questions are shown, the current one exists. */
    ghost predicate Valid()
      reads this
    {
      && (questions == [] ==> currentQuestion == 0)
      && (questions != [] ==> 0 <= currentQuestion < |questions|)
    }

    /** Before loading: no questions (the loading screen), question 0, nothing selected. */
    constructor ()
      ensures Valid()
      ensures currentQuestion == 0 && selectedAnswer.None? && timeLeft == InitialTimeLeft
      ensures title == "Loading..." && questions == []
    {
      currentQuestion := 0;
      selectedAnswer := None;
      timeLeft := InitialTimeLeft;
      title := "Loading...";
      questions := [];
    }

    /** The effect that sets the assessment once the page has mounted. */
    method Load()
      modifies this
      requires Valid()
      requires questions == [] || questions == LoadedQuestions
      ensures Valid()
      ensures title == "LLM Assessment: Transformer Architecture" && questions == LoadedQuestions
      ensures currentQuestion == old(currentQuestion) && selectedAnswer == old(selectedAnswer)
      ensures timeLeft == old(timeLeft)
    {
      title := "LLM Assessment: Transformer Architecture";
      questions := LoadedQuestions;
    }

    /** A click on option `index` of the question on screen. */
    method SelectAnswer(index: nat)
      modifies this
      requires Valid() && questions != [] && index < |questions[currentQuestion].options|
      ensures Valid()
      ensures selectedAnswer == Some(index)
      ensures currentQuestion == old(currentQuestion) && questions == old(questions)
      ensures timeLeft == old(timeLeft) && title == old(title)
    {
      selectedAnswer := Some(index);
    }

    /** The Previous button: disabled on the first question; otherwise back one question
        with the selection cleared. */
    method Previous()
      modifies this
      requires Valid()
      ensures Valid()
      ensures old(currentQuestion) == 0 ==> currentQuestion == 0 && selectedAnswer == old(selectedAnswer)
      ensures old(currentQuestion) > 0 ==> currentQuestion == old(currentQuestion) - 1 && selectedAnswer.None?
      ensures questions == old(questions) && timeLeft == old(timeLeft) && title == old(title)
    {
      if currentQuestion == 0 {
        return;
      }
      currentQuestion := currentQuestion - 1;
      selectedAnswer := None;
    }

    /** The Next button (labelled Submit on the last question): forward one question with
        the selection cleared, and nothing on the last question. */
    method Next()
      modifies this
      requires Valid()
      ensures Valid()
      ensures old(currentQuestion) < |questions| - 1 ==>
                currentQuestion == old(currentQuestion) + 1 && selectedAnswer.None?
      ensures old(currentQuestion) >= |questions| - 1 ==>
                currentQuestion == old(currentQuestion) && selectedAnswer == old(selectedAnswer)
      ensures questions == old(questions) && timeLeft == old(timeLeft) && title == old(title)
    {
      if currentQuestion < |questions| - 1 {
        currentQuestion := currentQuestion + 1;
        selectedAnswer := None;
      }
    }
  }
}
