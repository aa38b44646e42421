/** Terminated strings in fixed buffers, and the helpers of src/helper.c that work on them. */
module Text {
  /** The buffer holds `s` as a terminated string. */
  ghost predicate Holds(buf: array<char>, s: string)
    reads buf
  {
    |s| < buf.Length && buf[..|s|] == s && buf[|s|] == '\0' && '\0' !in s
  }

  method Fill(buf: array<char>, s: string)
    requires |s| < buf.Length && '\0' !in s
    modifies buf
    ensures Holds(buf, s)
  {
    forall i | 0 <= i < |s| {
      buf[i] := s[i];
    }
    buf[|s|] := '\0';
  }

  /** The part of `s` that a buffer of the given size has room for. */
  function Cut(s: string, size: nat): (r: string)
    requires size > 0
    ensures r <= s && |r| == if |s| < size then |s| else size - 1
  {
    if |s| < size then s else s[..size - 1]
  }

  /** `copy_string`, like `snprintf` of `%s`. */
  method CopyString(buf: array<char>, s: string)
    requires buf.Length > 0 && '\0' !in s
    modifies buf
    ensures Holds(buf, Cut(s, buf.Length))
  {
    Fill(buf, Cut(s, buf.Length));
  }

  /** `isspace` in the C locale. */
  predicate IsSpace(c: char) {
    c == ' ' || 9 <= c as int <= 13
  }

  function Trim(s: string): (r: string)
    ensures r == "" || (!IsSpace(r[0]) && !IsSpace(r[|r| - 1]))
    decreases |s|
  {
    if s == "" then ""
    else if IsSpace(s[0]) then Trim(s[1..])
    else if IsSpace(s[|s| - 1]) then Trim(s[..|s| - 1])
    else s
  }

  /** The terminator, and nothing before it, ends the text. */
  lemma EndsAt(buf: array<char>, s: string, i: nat)
    requires Holds(buf, s) && i <= |s|
    ensures if i == |s| then buf[i] == '\0' else buf[i] == s[i] && s[i] != '\0'
  {
    if i < |s| {
      assert buf[i] == buf[..|s|][i];
    }
  }

  method StrLen(buf: array<char>, start: nat, ghost s: string) returns (n: nat)
    requires Holds(buf, s) && start <= |s|
    ensures n == |s| - start
  {
    n := 0;
    EndsAt(buf, s, start);
    while buf[start + n] != '\0'
      invariant start + n <= |s| && (buf[start + n] == '\0' <==> start + n == |s|)
      decreases |s| - n
    {
      n := n + 1;
      EndsAt(buf, s, start + n);
    }
  }

  method MoveDown(buf: array<char>, start: nat, count: nat)
    requires start + count <= buf.Length
    modifies buf
    ensures forall i | 0 <= i < count :: buf[i] == old(buf[i + start])
  {
    forall i | 0 <= i < count {
      buf[i] := buf[i + start];
    }
  }

  method TrimFront(buf: array<char>, ghost s: string) returns (ghost t: string)
    requires Holds(buf, s)
    modifies buf
    ensures Holds(buf, t) && Trim(t) == Trim(s) && (t == "" || !IsSpace(t[0]))
  {
    var start := 0;
    EndsAt(buf, s, 0);
    while buf[start] != '\0' && IsSpace(buf[start])
      invariant start <= |s| && Trim(s[start..]) == Trim(s) && Holds(buf, s)
      invariant if start == |s| then buf[start] == '\0' else buf[start] == s[start] != '\0'
      decreases |s| - start
    {
      assert s[start..][1..] == s[start + 1..];
      start := start + 1;
      EndsAt(buf, s, start);
    }
    t := s[start..];
    if start != 0 {
      var n := StrLen(buf, start, s);
      ghost var was := buf[..];
      assert was[..|s|] == s;
      MoveDown(buf, start, n + 1);
      assert buf[..n] == t;
    }
  }

  method TrimBack(buf: array<char>, ghost s: string)
    requires Holds(buf, s) && (s == "" || !IsSpace(s[0]))
    modifies buf
    ensures Holds(buf, Trim(s))
  {
    var end := StrLen(buf, 0, s);
    assert s[..end] == s;
    while end > 0 && IsSpace(buf[end - 1])
      invariant end <= |s| && Trim(s[..end]) == Trim(s) && Holds(buf, s)
    {
      EndsAt(buf, s, end - 1);
      assert s[..end][..end - 1] == s[..end - 1];
      end := end - 1;
    }
    if end > 0 {
      EndsAt(buf, s, end - 1);
    }
    assert Trim(s[..end]) == s[..end];
    buf[end] := '\0';
    assert buf[..end] == s[..end];
  }

  /** `trim_inplace`. */
  method TrimInplace(buf: array<char>, ghost s: string)
    requires Holds(buf, s)
    modifies buf
    ensures Holds(buf, Trim(s))
  {
    EndsAt(buf, s, 0);
    if buf[0] == '\0' {
      return;
    }
    ghost var t := TrimFront(buf, s);
    TrimBack(buf, t);
  }
}
