/** The keyboard's edit of the label text (src/main.rs:188-202). */
module TextEdit {
  const Backspace: char := '\U{8}'
  const Delete: char := '\U{7f}'

  /** A character that the edit appends. */
  predicate Printable(c: char) {
    c != Backspace && c != Delete
  }

  /**
   * One `ReceivedCharacter`: backspace drops the last character (nothing on
   * empty text), delete is ignored, anything else is appended.
   */
  function Edit(text: string, c: char): (r: string)
    ensures c == Backspace ==> r <= text && |r| == if text == [] then 0 else |text| - 1
    ensures c == Delete ==> r == text
    ensures Printable(c) ==> text <= r && |r| == |text| + 1 && r[|text|] == c
  {
    if c == Backspace then
      if text == [] then text else text[..|text| - 1]
    else if c != Delete then
      text + [c]
    else
      text
  }

  /** The text after the characters `cs` arrive one event at a time. */
  function Typed(text: string, cs: string): string
    decreases |cs|
  {
    if cs == [] then text else Typed(Edit(text, cs[0]), cs[1..])
  }

  function Repeat(c: char, n: nat): (r: string)
    ensures |r| == n && forall i :: 0 <= i < n ==> r[i] == c
  {
    if n == 0 then [] else [c] + Repeat(c, n - 1)
  }

  /** Backspace undoes the character just typed. */
  lemma BackspaceUndoesTyping(text: string, c: char)
    requires Printable(c)
    ensures Edit(Edit(text, c), Backspace) == text
  {
    assert (text + [c])[..|text|] == text;
  }

  /** Typing only printable characters appends them, in order, each once. */
  lemma {:induction false} TypingAppends(text: string, cs: string)
    requires forall i :: 0 <= i < |cs| ==> Printable(cs[i])
    ensures Typed(text, cs) == text + cs
    decreases |cs|
  {
    if cs != [] {
      TypingAppends(text + [cs[0]], cs[1..]);
      assert text + [cs[0]] + cs[1..] == text + cs;
    }
  }

  /** `n` backspaces erase the last `n` characters, or all of them. */
  lemma {:induction false} BackspacesErase(text: string, n: nat)
    ensures Typed(text, Repeat(Backspace, n)) == text[..if n <= |text| then |text| - n else 0]
    decreases n
  {
    var bs := Repeat(Backspace, n);
    if n > 0 {
      assert bs[0] == Backspace && bs[1..] == Repeat(Backspace, n - 1);
      var shorter := Edit(text, Backspace);
      BackspacesErase(shorter, n - 1);
      if text != [] {
        assert shorter == text[..|text| - 1];
        assert shorter[..if n - 1 <= |shorter| then |shorter| - (n - 1) else 0]
            == text[..if n <= |text| then |text| - n else 0];
      }
    }
  }

  /** Delete characters leave the text alone however many arrive. */
  lemma {:induction false} DeletesIgnored(text: string, n: nat)
    ensures Typed(text, Repeat(Delete, n)) == text
    decreases n
  {
    if n > 0 {
      var ds := Repeat(Delete, n);
      assert ds[0] == Delete && ds[1..] == Repeat(Delete, n - 1);
      DeletesIgnored(text, n - 1);
    }
  }
}
