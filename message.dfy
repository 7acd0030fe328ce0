/** One turn entry of a conversation history. */
module Messages {
  import opened Text

  /** A message as stored in the history: the clock reading taken when it was made, the
      speaker's role ("user" or "assistant") and the text. */
  datatype Message = Message(timestamp: int, role: string, message: string)

  /** The two-argument constructor, the only one in effect (a second definition of the
      initialiser replaces the three-argument one). `clock` is the nanosecond clock reading
      at construction. */
  function Create(role: string, message: string, clock: int): (m: Message)
    ensures m.role == role && m.message == message && m.timestamp == clock
  {
    Message(clock, role, message)
  }

  /** `role @ timestamp : message`. */
  function Render(m: Message): (r: string)
    ensures |r| == |m.role| + |IntToString(m.timestamp)| + |m.message| + 6
    ensures r[..|m.role| + 3] == m.role + " @ "
    ensures r[|r| - |m.message| - 3..] == " : " + m.message
    ensures r[|m.role| + 3..|r| - |m.message| - 3] == IntToString(m.timestamp)
  {
    m.role + " @ " + IntToString(m.timestamp) + " : " + m.message
  }

  /** Splitting `a + " " + x` at the first space recovers `a` when `a` holds no space. */
  lemma SplitAtSpace(a: string, x: string, b: string, y: string)
    requires forall k :: 0 <= k < |a| ==> a[k] != ' '
    requires forall k :: 0 <= k < |b| ==> b[k] != ' '
    requires a + " " + x == b + " " + y
    ensures a == b && x == y
  {
    var s := a + " " + x;
    assert s[|a|] == ' ' && s[|b|] == ' ';
    assert |a| == |b|;
    assert a == s[..|a|] == b;
    assert x == s[|a| + 1..] == y;
  }

  /** What follows the role in a rendering: the timestamp, one space, then the text. */
  lemma RenderAfterRole(m: Message)
    ensures Render(m)[|m.role| + 3..] == IntToString(m.timestamp) + " " + (": " + m.message)
  {
  }

  /** Two messages of the same role render to the same text only if they are equal: the
      rendering keeps the timestamp and the text apart. */
  lemma RenderInjective(m1: Message, m2: Message)
    requires m1.role == m2.role
    requires Render(m1) == Render(m2)
    ensures m1 == m2
  {
    var t1, t2 := IntToString(m1.timestamp), IntToString(m2.timestamp);
    RenderAfterRole(m1);
    RenderAfterRole(m2);
    SplitAtSpace(t1, ": " + m1.message, t2, ": " + m2.message);
    IntToStringInjective(m1.timestamp, m2.timestamp);
    assert m1.message == (": " + m1.message)[2..];
    assert m2.message == (": " + m2.message)[2..];
  }
}
