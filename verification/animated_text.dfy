/**
 * The text helpers of the animated-text components: the typewriter that
 * reveals its text one character per timer tick, the word split with
 * highlighting, the gradient text's fallback to its children, and the logo's
 * per-letter spans. Animation variants, timing and class names are
 * presentation and are not modelled.
 */
module AnimatedText {
  import opened Js

  // ---------------------------------------------------------------------
  // Typewriter

  /** What one run of the typewriter's effect does. */
  datatype EffectRun =
    /** A timeout is set that will append the next character. */
    | Scheduled
    /** `onComplete` is called. */
    | Completed
    /** The text is fully shown and there is no `onComplete`. */
    | Idle

  class Typewriter {
    const text: string
    var displayText: string
    var currentIndex: int

    /** For a fixed text, the shown text is always its first `currentIndex` characters. */
    predicate Valid()
      reads this
    {
      0 <= currentIndex <= |text| && displayText == text[..currentIndex]
    }

    constructor (text: string)
      ensures Valid()
      ensures this.text == text && displayText == "" && currentIndex == 0
    {
      this.text := text;
      displayText := "";
      currentIndex := 0;
    }

    /** The effect after a render: schedule the next character while some remain, else call `onComplete` if given. */
    method Effect(hasOnComplete: bool) returns (run: EffectRun)
      requires Valid()
      ensures run == Scheduled <==> currentIndex < |text|
      ensures run == Completed <==> currentIndex >= |text| && hasOnComplete
      ensures run == Completed ==> displayText == text
    {
      if currentIndex < |text| {
        run := Scheduled;
      } else if hasOnComplete {
        run := Completed;
      } else {
        run := Idle;
      }
    }

    /** The scheduled timeout fires: both updaters run, appending `text[currentIndex]` and advancing the index by one. */
    method Tick()
      requires Valid() && currentIndex < |text|
      modifies this
      ensures Valid()
      ensures currentIndex == old(currentIndex) + 1
      ensures displayText == old(displayText) + [text[old(currentIndex)]]
    {
      displayText := displayText + [text[currentIndex]];
      currentIndex := currentIndex + 1;
    }
  }

  /** The typewriter on "Hi": two ticks show the whole text, and only then does the effect complete. */
  method TypeHi() returns (first: EffectRun, last: EffectRun, shown: string)
    ensures first == Scheduled && last == Completed && shown == "Hi"
  {
    var t := new Typewriter("Hi");
    first := t.Effect(true);
    t.Tick();
    t.Tick();
    last := t.Effect(true);
    shown := t.displayText;
  }

  // ---------------------------------------------------------------------
  // Words

  predicate NoSpace(w: string) {
    forall i :: 0 <= i < |w| ==> w[i] != ' '
  }

  /** `text.split(" ")`: the pieces between single spaces, empty ones included; never an empty list. */
  function Split(s: string): (ws: seq<string>)
    ensures |ws| >= 1
    ensures forall i :: 0 <= i < |ws| ==> NoSpace(ws[i])
  {
    if |s| == 0 then [""]
    else
      var rest := Split(s[1..]);
      if s[0] == ' ' then [""] + rest
      else
        assert NoSpace([s[0]] + rest[0]) by {
          forall k | 0 <= k < |[s[0]] + rest[0]|
            ensures ([s[0]] + rest[0])[k] != ' '
          {
            if k > 0 {
              assert ([s[0]] + rest[0])[k] == rest[0][k - 1];
            }
          }
        }
        [[s[0]] + rest[0]] + rest[1..]
  }

  /** The words put back with one space between neighbours and none after the last. */
  function Join(ws: seq<string>): string {
    if |ws| == 0 then ""
    else if |ws| == 1 then ws[0]
    else ws[0] + " " + Join(ws[1..])
  }

  /** Joining the split words gives back the text. */
  lemma {:induction false} JoinSplit(s: string)
    ensures Join(Split(s)) == s
  {
    if |s| > 0 {
      var rest := Split(s[1..]);
      JoinSplit(s[1..]);
      if s[0] == ' ' {
        assert Join([""] + rest) == "" + " " + Join(([""] + rest)[1..]);
        assert ([""] + rest)[1..] == rest;
        assert s == [s[0]] + s[1..];
      } else {
        var ws := [[s[0]] + rest[0]] + rest[1..];
        assert ws[1..] == rest[1..];
        if |rest| == 1 {
          assert Join(ws) == [s[0]] + rest[0];
        } else {
          assert Join(ws) == [s[0]] + rest[0] + " " + Join(rest[1..]);
          assert Join(rest) == rest[0] + " " + Join(rest[1..]);
        }
        assert s == [s[0]] + s[1..];
      }
    }
  }

  /** A word without spaces in front of a text becomes the front of the text's first piece. */
  lemma {:induction false} SplitAfterWord(w: string, t: string)
    requires NoSpace(w)
    ensures Split(w + t) == [w + Split(t)[0]] + Split(t)[1..]
  {
    if |w| > 0 {
      assert (w + t)[1..] == w[1..] + t;
      assert (w + t)[0] == w[0];
      SplitAfterWord(w[1..], t);
      assert [w[0]] + (w[1..] + Split(t)[0]) == w + Split(t)[0];
    } else {
      assert w + t == t;
      assert w + Split(t)[0] == Split(t)[0];
      assert [Split(t)[0]] + Split(t)[1..] == Split(t);
    }
  }

  /** Splitting words joined by single spaces gives back the words, when none holds a space. */
  lemma {:induction false} SplitJoin(ws: seq<string>)
    requires |ws| >= 1
    requires forall i :: 0 <= i < |ws| ==> NoSpace(ws[i])
    ensures Split(Join(ws)) == ws
  {
    if |ws| == 1 {
      SplitAfterWord(ws[0], "");
      assert ws[0] + "" == ws[0];
    } else {
      var t := " " + Join(ws[1..]);
      SplitJoin(ws[1..]);
      assert Split(t) == [""] + Split(Join(ws[1..])) by {
        assert t[1..] == Join(ws[1..]);
      }
      assert ws[0] + " " + Join(ws[1..]) == ws[0] + t;
      SplitAfterWord(ws[0], t);
      assert ws[0] + "" == ws[0];
    }
  }

  datatype Animation = Fade | Slide | Bounce | Scale | TypewriterAnimation

  /** One word's span and the space after it, unless it is the last. */
  datatype WordSpan = WordSpan(word: string, highlighted: bool, trailingSpace: bool)

  datatype Output = TypewriterOf(text: string) | Words(spans: seq<WordSpan>)

  /** `highlightWords.includes(word)`: exact membership. */
  predicate Highlighted(highlightWords: seq<string>, word: string) {
    word in highlightWords
  }

  function Spans(words: seq<string>, highlightWords: seq<string>): (spans: seq<WordSpan>)
    ensures |spans| == |words|
    ensures forall i :: 0 <= i < |words| ==> spans[i].word == words[i]
    ensures forall i :: 0 <= i < |words| ==> (spans[i].highlighted <==> Highlighted(highlightWords, words[i]))
    ensures forall i :: 0 <= i < |words| ==> (spans[i].trailingSpace <==> i != |words| - 1)
  {
    seq(|words|, i requires 0 <= i < |words| => WordSpan(words[i], Highlighted(highlightWords, words[i]), i != |words| - 1))
  }

  function Render(text: string, animation: Animation, highlightWords: seq<string>): (o: Output)
    ensures animation == TypewriterAnimation ==> o == TypewriterOf(text)
    ensures animation != TypewriterAnimation ==> o == Words(Spans(Split(text), highlightWords))
  {
    if animation == TypewriterAnimation then TypewriterOf(text)
    else Words(Spans(Split(text), highlightWords))
  }

  /** The characters the spans put on screen. */
  function Shown(spans: seq<WordSpan>): string {
    if |spans| == 0 then ""
    else spans[0].word + (if spans[0].trailingSpace then " " else "") + Shown(spans[1..])
  }

  lemma {:induction false} ShownSpans(words: seq<string>, highlightWords: seq<string>)
    requires |words| >= 1
    ensures Shown(Spans(words, highlightWords)) == Join(words)
  {
    var spans := Spans(words, highlightWords);
    if |words| == 1 {
      assert Shown(spans[1..]) == "";
    } else {
      ShownSpans(words[1..], highlightWords);
      assert spans[1..] == Spans(words[1..], highlightWords);
    }
  }

  /** Whatever the highlighting, the word spans show exactly the text. */
  lemma WordsShowText(text: string, animation: Animation, highlightWords: seq<string>)
    requires animation != TypewriterAnimation
    ensures Shown(Render(text, animation, highlightWords).spans) == text
  {
    ShownSpans(Split(text), highlightWords);
    JoinSplit(text);
  }

  /** The spans of text made of space-free words joined by single spaces: one per word, highlighted exactly when listed. */
  lemma SpansOfWords(ws: seq<string>, highlightWords: seq<string>)
    requires |ws| >= 1
    requires forall i :: 0 <= i < |ws| ==> NoSpace(ws[i])
    ensures Render(Join(ws), Fade, highlightWords) == Words(Spans(ws, highlightWords))
  {
    SplitJoin(ws);
  }

  /**
   * Highlighting is by exact word: with `word` listed, the text
   * `word + mark + " " + word` (say "skills, skills") highlights only the
   * second word, since the mark stays attached to the first.
   */
  lemma PunctuationBlocksHighlight(word: string, mark: char)
    requires NoSpace(word) && mark != ' '
    ensures Render(word + [mark] + " " + word, Fade, [word])
            == Words([WordSpan(word + [mark], false, true), WordSpan(word, true, false)])
  {
    var marked := word + [mark];
    assert NoSpace(marked) by {
      forall k | 0 <= k < |marked|
        ensures marked[k] != ' '
      {
        if k < |word| {
          assert marked[k] == word[k];
        }
      }
    }
    var ws := [marked, word];
    assert Join(ws) == marked + " " + word;
    SpansOfWords(ws, [word]);
    assert |marked| != |word|;
  }

  // ---------------------------------------------------------------------
  // Gradient text and the logo

  datatype Gradient = Gradient(animated: bool, content: Value)

  /** The shown content is `text || children`: the text unless it is empty. */
  function GradientText(text: string, animate: bool, children: Value): (g: Gradient)
    ensures g.animated == animate
    ensures text != "" ==> g.content == Str(text)
    ensures text == "" ==> g.content == children
  {
    Gradient(animate, Or(Str(text), children))
  }

  const Logo: string := "CreoTask"

  /** `"CreoTask".split("")`: one letter per span. */
  function LogoLetters(): (letters: seq<string>)
    ensures |letters| == |Logo| == 8
    ensures forall i :: 0 <= i < |letters| ==> letters[i] == [Logo[i]]
  {
    seq(|Logo|, i requires 0 <= i < |Logo| => [Logo[i]])
  }
}
