/** Text buffers of the keyboard: the host document before the cursor and the
    command bar, whose text always ends in a cursor marker while a command is
    being typed. */
module CommandText {

  /** `suffix` ends `s`. */
  predicate EndsWith(s: string, suffix: string)
  {
    |suffix| <= |s| && s[|s| - |suffix|..] == suffix
  }

  /** The last `n` characters of `s`, or all of `s` when it is shorter
      (Swift's `suffix(n)`). */
  function Suffix(s: string, n: nat): (r: string)
    ensures |r| == if |s| <= n then |s| else n
    ensures EndsWith(s, r)
  {
    if |s| <= n then s else s[|s| - n..]
  }

  /** `s` without its last character; the empty text stays empty
      (the host's `deleteBackward`). */
  function DropLast(s: string): (r: string)
    ensures s == [] ==> r == []
    ensures s != [] ==> r + [s[|s| - 1]] == s
  {
    if s == [] then [] else s[..|s| - 1]
  }

  /** The character before the last one. */
  function SecondToLast(s: string): char
    requires |s| >= 2
  {
    s[|s| - 2]
  }

  /** The text of the command bar in front of the cursor marker. */
  function Body(bar: string, cursor: string): (body: string)
    ensures EndsWith(bar, cursor) ==> body + cursor == bar
    ensures !EndsWith(bar, cursor) ==> body == bar
  {
    if EndsWith(bar, cursor) then bar[..|bar| - |cursor|] else bar
  }

  lemma BodyOfCursorEnded(body: string, cursor: string)
    ensures EndsWith(body + cursor, cursor)
    ensures Body(body + cursor, cursor) == body
  {
    assert (body + cursor)[|body|..] == cursor;
    assert (body + cursor)[..|body|] == body;
  }

  /** `text` typed in front of the cursor marker. */
  function InsertPriorToCursor(bar: string, cursor: string, text: string): (r: string)
    ensures EndsWith(r, cursor)
    ensures Body(r, cursor) == Body(bar, cursor) + text
  {
    BodyOfCursorEnded(Body(bar, cursor) + text, cursor);
    Body(bar, cursor) + text + cursor
  }

  /** The character in front of the cursor marker removed. */
  function DeletePriorToCursor(bar: string, cursor: string): (r: string)
    ensures EndsWith(r, cursor)
    ensures Body(r, cursor) == DropLast(Body(bar, cursor))
  {
    BodyOfCursorEnded(DropLast(Body(bar, cursor)), cursor);
    DropLast(Body(bar, cursor)) + cursor
  }

  /** Deleting what was just typed in front of the cursor restores the bar. */
  lemma InsertThenDelete(bar: string, cursor: string, c: char)
    requires EndsWith(bar, cursor)
    ensures DeletePriorToCursor(InsertPriorToCursor(bar, cursor, [c]), cursor) == bar
  {
    var body := Body(bar, cursor);
    assert DropLast(body + [c]) == body;
  }

  /** Editing in front of the cursor never touches a prefix of the typed text
      that the deletion does not reach. */
  lemma DeleteKeepsPrefix(bar: string, cursor: string, prefix: string)
    requires EndsWith(bar, cursor)
    requires |prefix| < |Body(bar, cursor)| && Body(bar, cursor)[..|prefix|] == prefix
    ensures Body(DeletePriorToCursor(bar, cursor), cursor)[..|prefix|] == prefix
  {
    var body := Body(bar, cursor);
    assert DropLast(body)[..|prefix|] == body[..|prefix|];
  }
}
