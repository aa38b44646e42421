/** The extractor of src/ipdetect.c that finds an IP address in the text of a response. */
module Extract {
  import opened Types
  import opened Text

  const BODY_SIZE := 512
  const TOKEN_SIZE := 128
  const LONGEST_ADDRESS := 45

  predicate Delimiter(c: char) {
    IsSpace(c) || c == '"' || c == '\'' || c == '<' || c == '>' || c == ',' || c == ';'
  }

  /** What `inet_pton` is known to accept: short nonempty text without a delimiter. */
  ghost predicate AddressesOnly(accepts: string -> bool) {
    forall s | accepts(s) :: 0 < |s| <= LONGEST_ADDRESS && forall c | c in s :: !Delimiter(c)
  }

  /** An address of the requested family; family 0 stands for either. */
  predicate Wanted(s: string, family: int, ipv4: string -> bool, ipv6: string -> bool) {
    ((family == 0 || family == 4) && ipv4(s)) || ((family == 0 || family == 6) && ipv6(s))
  }

  // ---- the specification --------------------------------------------------------------------------

  /** The length of the token that `s` starts with. */
  function TokenLength(s: string): (n: nat)
    ensures n <= |s| && (forall i | 0 <= i < n :: !Delimiter(s[i])) && (n < |s| ==> Delimiter(s[n]))
  {
    if s != "" && !Delimiter(s[0]) then 1 + TokenLength(s[1..]) else 0
  }

  lemma {:induction false} TokenLengthIs(s: string, n: nat)
    requires n <= |s| && (forall i | 0 <= i < n :: !Delimiter(s[i])) && (n < |s| ==> Delimiter(s[n]))
    ensures TokenLength(s) == n
  {
    if n > 0 {
      TokenLengthIs(s[1..], n - 1);
    }
  }

  function FirstAddress(s: string, family: int, ipv4: string -> bool, ipv6: string -> bool): Option<string>
    decreases |s|
  {
    if s == "" then None
    else if Delimiter(s[0]) then FirstAddress(s[1..], family, ipv4, ipv6)
    else
      var n := TokenLength(s);
      if Wanted(s[..n], family, ipv4, ipv6) then Some(s[..n]) else FirstAddress(s[n..], family, ipv4, ipv6)
  }

  /** White space, a quote, an angle bracket, a comma or a semicolon. */
  predicate Separates(c: char) {
    || c == ' ' || c == '\t' || c == '\n' || c as int == 11 || c as int == 12 || c == '\r'
    || c == '"' || c == '\'' || c == '<' || c == '>' || c == ',' || c == ';'
  }

  /** `s[i..j]` is a maximal stretch of the text without a separator. */
  ghost predicate Token(s: string, i: int, j: int) {
    && 0 <= i < j <= |s| && (forall k | i <= k < j :: !Separates(s[k]))
    && (i == 0 || Separates(s[i - 1])) && (j == |s| || Separates(s[j]))
  }

  /** An IPv4 address unless IPv6 is asked for, or an IPv6 address unless IPv4 is. */
  predicate OfFamily(s: string, family: int, ipv4: string -> bool, ipv6: string -> bool) {
    (ipv4(s) && family in {0, 4}) || (ipv6(s) && family in {0, 6})
  }

  ghost predicate AddressAt(s: string, i: int, j: int, family: int, ipv4: string -> bool, ipv6: string -> bool) {
    Token(s, i, j) && OfFamily(s[i..j], family, ipv4, ipv6)
  }

  /** The first token that is an address of the family, if any is. */
  lemma FirstAddressIsFirst(s: string, family: int, ipv4: string -> bool, ipv6: string -> bool)
    ensures match FirstAddress(s, family, ipv4, ipv6)
            case None => forall i, j :: !AddressAt(s, i, j, family, ipv4, ipv6)
            case Some(a) => exists i, j :: AddressAt(s, i, j, family, ipv4, ipv6) && a == s[i..j]
                              && forall k, l :: AddressAt(s, k, l, family, ipv4, ipv6) ==> i <= k
  {
    var i, j := FirstFrom(s, 0, family, ipv4, ipv6);
    assert s[0..] == s;
  }

  lemma {:induction false} FirstFrom(s: string, from: nat, family: int, ipv4: string -> bool, ipv6: string -> bool)
    returns (i: int, j: int)
    requires from <= |s| && (from == 0 || from == |s| || Delimiter(s[from - 1]) || Delimiter(s[from]))
    ensures match FirstAddress(s[from..], family, ipv4, ipv6)
            case None => forall k, l :: from <= k ==> !AddressAt(s, k, l, family, ipv4, ipv6)
            case Some(a) => AddressAt(s, i, j, family, ipv4, ipv6) && a == s[i..j]
                            && forall k, l :: from <= k && AddressAt(s, k, l, family, ipv4, ipv6) ==> i <= k
    decreases |s| - from
  {
    hide Delimiter, Token, Wanted, OfFamily;
    var t := s[from..];
    i, j := from, from;
    if t == "" {
      NoTokenPast(s);
    } else {
      if Delimiter(t[0]) {
        assert t[1..] == s[from + 1..];
        NoTokenAt(s, from);
        i, j := FirstFrom(s, from + 1, family, ipv4, ipv6);
      } else {
        j := from + TokenLength(t);
        TokenAt(s, from, j, family, ipv4, ipv6);
        WantedIsOfFamily(s[from..j], family, ipv4, ipv6);
        if !Wanted(s[from..j], family, ipv4, ipv6) {
          i, j := FirstFrom(s, j, family, ipv4, ipv6);
        }
      }
    }
  }

  lemma WantedIsOfFamily(s: string, family: int, ipv4: string -> bool, ipv6: string -> bool)
    ensures Wanted(s, family, ipv4, ipv6) <==> OfFamily(s, family, ipv4, ipv6)
  {
  }

  lemma NoTokenPast(s: string)
    ensures forall i, j | |s| <= i :: !Token(s, i, j)
  {
  }

  lemma NoTokenAt(s: string, i: nat)
    requires i < |s| && Delimiter(s[i])
    ensures forall j :: !Token(s, i, j)
  {
  }

  lemma TokenAt(s: string, i: nat, j: nat, family: int, ipv4: string -> bool, ipv6: string -> bool)
    requires i < |s| && (i == 0 || Delimiter(s[i - 1]) || Delimiter(s[i])) && !Delimiter(s[i])
    requires j == i + TokenLength(s[i..])
    ensures i < j <= |s| && (j == |s| || Delimiter(s[j]))
    ensures Token(s, i, j) && forall k, l | Token(s, k, l) && i <= k < j :: k == i && l == j
    ensures FirstAddress(s[i..], family, ipv4, ipv6) == if Wanted(s[i..j], family, ipv4, ipv6) then Some(s[i..j])
                                                        else FirstAddress(s[j..], family, ipv4, ipv6)
  {
    var t, n := s[i..], j - i;
    assert t[..n] == s[i..j] && t[n..] == s[j..];
    assert forall k | i <= k < j :: s[k] == t[k - i];
    assert j < |s| ==> s[j] == t[n];
    OnlyToken(s, i, j);
  }

  /** A token ends the way it ends, and none starts inside it. */
  lemma OnlyToken(s: string, i: int, j: int)
    requires 0 <= i < j <= |s| && (forall k | i <= k < j :: !Delimiter(s[k])) && (j == |s| || Delimiter(s[j]))
    ensures forall k, l | Token(s, k, l) && i <= k < j :: k == i && l == j
  {
  }

  // ---- why the shortcuts agree ----------------------------------------------------------------------

  /** Trimming takes no token away. */
  lemma {:induction false} TrimKeepsFirst(s: string, family: int, ipv4: string -> bool, ipv6: string -> bool)
    ensures FirstAddress(Trim(s), family, ipv4, ipv6) == FirstAddress(s, family, ipv4, ipv6)
    decreases |s|
  {
    if s == "" {
    } else if IsSpace(s[0]) {
      TrimKeepsFirst(s[1..], family, ipv4, ipv6);
    } else if IsSpace(s[|s| - 1]) {
      TrimKeepsFirst(s[..|s| - 1], family, ipv4, ipv6);
      LastDelimiter(s, family, ipv4, ipv6);
    }
  }

  lemma {:induction false} LastDelimiter(s: string, family: int, ipv4: string -> bool, ipv6: string -> bool)
    requires s != "" && Delimiter(s[|s| - 1])
    ensures FirstAddress(s[..|s| - 1], family, ipv4, ipv6) == FirstAddress(s, family, ipv4, ipv6)
    decreases |s|
  {
    var t := s[..|s| - 1];
    if t == "" {
      assert s[1..] == "";
    } else if Delimiter(s[0]) {
      assert s[1..][..|s| - 2] == t[1..];
      LastDelimiter(s[1..], family, ipv4, ipv6);
    } else {
      var n := TokenLength(s);
      TokenLengthIs(t, n);
      assert s[..n] == t[..n] && s[n..][..|s| - n - 1] == t[n..];
      LastDelimiter(s[n..], family, ipv4, ipv6);
    }
  }

  /** The fast path: a text that is an address is its own only token. */
  lemma WholeText(s: string, family: int, ipv4: string -> bool, ipv6: string -> bool)
    requires AddressesOnly(ipv4) && AddressesOnly(ipv6) && Wanted(s, family, ipv4, ipv6)
    ensures FirstAddress(s, family, ipv4, ipv6) == Some(s)
  {
    assert forall i | 0 <= i < |s| :: s[i] in s;
    TokenLengthIs(s, |s|);
    assert s[..|s|] == s;
  }

  /** Cutting a token to its buffer never makes an address of it, nor loses one. */
  lemma CutToken(token: string, family: int, ipv4: string -> bool, ipv6: string -> bool)
    requires AddressesOnly(ipv4) && AddressesOnly(ipv6)
    ensures Wanted(Cut(token, TOKEN_SIZE), family, ipv4, ipv6) <==> Wanted(token, family, ipv4, ipv6)
    ensures Wanted(token, family, ipv4, ipv6) ==> Cut(token, TOKEN_SIZE) == token
  {
    if |token| >= TOKEN_SIZE {
      assert |Cut(token, TOKEN_SIZE)| == TOKEN_SIZE - 1;
    }
  }

  // ---- the extractor as written ---------------------------------------------------------------------

  method SkipDelimiters(buf: array<char>, start: nat, ghost s: string, family: int, ipv4: string -> bool,
                        ipv6: string -> bool)
    returns (p: nat)
    requires Holds(buf, s) && start <= |s|
    ensures start <= p <= |s| && (p < |s| ==> !Delimiter(s[p]))
    ensures FirstAddress(s[p..], family, ipv4, ipv6) == FirstAddress(s[start..], family, ipv4, ipv6)
  {
    p := start;
    EndsAt(buf, s, p);
    while buf[p] != '\0' && Delimiter(buf[p])
      invariant start <= p <= |s|
      invariant if p == |s| then buf[p] == '\0' else buf[p] == s[p] != '\0'
      invariant FirstAddress(s[p..], family, ipv4, ipv6) == FirstAddress(s[start..], family, ipv4, ipv6)
      decreases |s| - p
    {
      assert s[p..][1..] == s[p + 1..];
      p := p + 1;
      EndsAt(buf, s, p);
    }
  }

  /** Collects a token, as much of it as fits, and walks past it. */
  method ReadToken(buf: array<char>, start: nat, ghost s: string) returns (token: array<char>, n: nat, p: nat)
    requires Holds(buf, s) && start < |s| && !Delimiter(s[start])
    ensures start < p <= |s| && p == start + TokenLength(s[start..])
    ensures fresh(token) && Holds(token, Cut(s[start..p], TOKEN_SIZE)) && n == |Cut(s[start..p], TOKEN_SIZE)|
  {
    token := new char[TOKEN_SIZE];
    p, n := start, 0;
    EndsAt(buf, s, p);
    while buf[p] != '\0' && !Delimiter(buf[p])
      invariant start <= p <= |s| && (forall i | start <= i < p :: !Delimiter(s[i])) && (p == start ==> p < |s|)
      invariant if p == |s| then buf[p] == '\0' else buf[p] == s[p] != '\0'
      invariant n == |Cut(s[start..p], TOKEN_SIZE)| < token.Length && token[..n] == Cut(s[start..p], TOKEN_SIZE)
      decreases |s| - p
    {
      assert s[start..p + 1] == s[start..p] + [s[p]];
      if n + 1 < token.Length {
        token[n] := buf[p];
        n := n + 1;
      }
      p := p + 1;
      EndsAt(buf, s, p);
    }
    TokenLengthIs(s[start..], p - start);
    token[n] := '\0';
  }

  /** The next token, cut to its buffer: it is the answer if it is an address, and otherwise is not part of it. */
  method NextWord(buf: array<char>, start: nat, ghost s: string, family: int, ipv4: string -> bool,
                  ipv6: string -> bool)
    returns (word: string, p: nat)
    requires Holds(buf, s) && start < |s| && !Delimiter(s[start]) && AddressesOnly(ipv4) && AddressesOnly(ipv6)
    ensures start < p <= |s| && '\0' !in word
    ensures FirstAddress(s[start..], family, ipv4, ipv6) == if Wanted(word, family, ipv4, ipv6) then Some(word)
                                                            else FirstAddress(s[p..], family, ipv4, ipv6)
  {
    var token, n;
    token, n, p := ReadToken(buf, start, s);
    word := token[..n];
    ghost var rest := s[start..];
    assert s[start..p] == rest[..p - start] && s[p..] == rest[p - start..];
    CutToken(s[start..p], family, ipv4, ipv6);
  }

  /** The loop over the tokens of the trimmed text. */
  method ScanTokens(buf: array<char>, ghost s: string, family: int, out: array<char>, ipv4: string -> bool,
                    ipv6: string -> bool)
    returns (err: int)
    requires Holds(buf, s) && buf != out && out.Length > 0 && AddressesOnly(ipv4) && AddressesOnly(ipv6)
    modifies out
    ensures match FirstAddress(s, family, ipv4, ipv6)
            case Some(a) => err == 0 && Holds(out, Cut(a, out.Length))
            case None => err == -1 && out[..] == old(out[..])
  {
    err := -1;
    var p := 0;
    EndsAt(buf, s, p);
    while buf[p] != '\0'
      invariant p <= |s| && Holds(buf, s) && out[..] == old(out[..])
      invariant buf[p] == '\0' <==> p == |s|
      invariant FirstAddress(s[p..], family, ipv4, ipv6) == FirstAddress(s, family, ipv4, ipv6)
      decreases |s| - p
    {
      p := SkipDelimiters(buf, p, s, family, ipv4, ipv6);
      EndsAt(buf, s, p);
      if buf[p] == '\0' {
        break;
      }
      var word, next := NextWord(buf, p, s, family, ipv4, ipv6);
      EndsAt(buf, s, next);
      if Wanted(word, family, ipv4, ipv6) {
        CopyString(out, word);
        return 0;
      }
      p := next;
    }
  }

  /** `extract_ip`. */
  method ExtractIp(text: string, family: int, out: array<char>, ipv4: string -> bool, ipv6: string -> bool)
    returns (err: int)
    requires '\0' !in text && AddressesOnly(ipv4) && AddressesOnly(ipv6)
    modifies out
    ensures out.Length == 0 ==> err == -1
    ensures out.Length > 0 ==>
              match FirstAddress(Cut(text, BODY_SIZE), family, ipv4, ipv6)
              case Some(a) => err == 0 && Holds(out, Cut(a, out.Length))
              case None => err == -1 && out[..] == old(out[..])
  {
    if out.Length == 0 {
      return -1;
    }
    ghost var body := Cut(text, BODY_SIZE);
    var buf := new char[BODY_SIZE];
    CopyString(buf, text);
    TrimInplace(buf, body);
    ghost var s := Trim(body);
    TrimKeepsFirst(body, family, ipv4, ipv6);
    var length := StrLen(buf, 0, s);
    var whole := buf[..length];
    if Wanted(whole, family, ipv4, ipv6) {
      WholeText(s, family, ipv4, ipv6);
      CopyString(out, whole);
      return 0;
    }
    err := ScanTokens(buf, s, family, out, ipv4, ipv6);
  }
}
