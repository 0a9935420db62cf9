/** `java.util.StringTokenizer` with the single delimiter `','`, as the
    configuration uses it to split a tag list. A token is a maximal non-empty
    run of non-delimiter characters: empty fields (",,") yield nothing, while a
    field made only of spaces is a token. */
module Tokenizer {

  const DELIMITER: char := ','

  /** Number of characters of `s` before its first delimiter. */
  function TokenLength(s: string): (n: nat)
    ensures n <= |s|
    ensures forall i :: 0 <= i < n ==> s[i] != DELIMITER
    ensures n < |s| ==> s[n] == DELIMITER
  {
    if s == [] || s[0] == DELIMITER then 0 else 1 + TokenLength(s[1..])
  }

  /** The tokens `StringTokenizer(s, ",")` hands out, in order. */
  function Tokens(s: string): (r: seq<string>)
    ensures forall t :: t in r ==> t != [] && DELIMITER !in t
    decreases |s|
  {
    if s == [] then []
    else if s[0] == DELIMITER then Tokens(s[1..])
    else
      var n := TokenLength(s);
      [s[..n]] + Tokens(s[n..])
  }

  /** The two properties of `TokenLength` pin it down. */
  lemma TokenLengthUnique(s: string, k: nat)
    requires k <= |s|
    requires forall i :: 0 <= i < k ==> s[i] != DELIMITER
    requires k < |s| ==> s[k] == DELIMITER
    ensures TokenLength(s) == k
  {
  }

  /** A string without delimiters is a single token. */
  lemma TokensOfField(s: string)
    requires s != [] && DELIMITER !in s
    ensures Tokens(s) == [s]
  {
    TokenLengthUnique(s, |s|);
    assert s[..|s|] == s;
  }

  /** A delimiter splits the token stream: the tokens of `a + "," + b` are the
      tokens of `a` followed by the tokens of `b`. */
  lemma {:induction false} TokensSplit(a: string, b: string)
    ensures Tokens(a + [DELIMITER] + b) == Tokens(a) + Tokens(b)
    decreases |a|
  {
    var s := a + [DELIMITER] + b;
    if a == [] {
      assert s[1..] == b;
    } else if a[0] == DELIMITER {
      assert s[1..] == a[1..] + [DELIMITER] + b;
      TokensSplit(a[1..], b);
    } else {
      var n := TokenLength(a);
      TokenLengthUnique(s, n);
      assert s[..n] == a[..n];
      if n == |a| {
        assert s[n..] == [DELIMITER] + b;
        assert ([DELIMITER] + b)[1..] == b;
        assert a[n..] == [];
      } else {
        assert s[n..] == a[n..] + [DELIMITER] + b;
        TokensSplit(a[n..], b);
      }
    }
  }

  /** The tokens joined back together with single delimiters. */
  function Join(tokens: seq<string>): string {
    if tokens == [] then []
    else if |tokens| == 1 then tokens[0]
    else tokens[0] + [DELIMITER] + Join(tokens[1..])
  }

  /** Round trip: tokenizing a comma-joined list of non-empty, comma-free
      fields gives back exactly those fields. */
  lemma {:induction false} TokensOfJoin(tokens: seq<string>)
    requires forall t :: t in tokens ==> t != [] && DELIMITER !in t
    ensures Tokens(Join(tokens)) == tokens
  {
    if |tokens| == 1 {
      assert tokens[0] in tokens;
      TokensOfField(tokens[0]);
    } else if |tokens| > 1 {
      assert tokens[0] in tokens;
      assert forall t :: t in tokens[1..] ==> t in tokens;
      TokensSplit(tokens[0], Join(tokens[1..]));
      TokensOfField(tokens[0]);
      TokensOfJoin(tokens[1..]);
    }
  }

  /** One step of the tokenizer: once the tokens before `start` have been
      handed out, handing out `s[start..end]` and skipping the delimiters up to
      `next` leaves exactly the tokens of `s[next..]` still to come. */
  lemma HandOutStep(s: string, handedOut: seq<string>, start: nat, end: nat, next: nat)
    requires start <= end <= next <= |s|
    requires Tokens(s) == handedOut + Tokens(s[start..])
    requires Tokens(s[start..]) == [s[start..end]] + Tokens(s[end..])
    requires Tokens(s[next..]) == Tokens(s[end..])
    ensures Tokens(s) == (handedOut + [s[start..end]]) + Tokens(s[next..])
  {
  }

  /** `skipDelimiters`: the first position at or after `pos` that is not a
      delimiter, or `|s|`. Skipping delimiters loses no token. */
  method SkipDelimiters(s: string, pos: nat) returns (p: nat)
    requires pos <= |s|
    ensures pos <= p <= |s|
    ensures forall i :: pos <= i < p ==> s[i] == DELIMITER
    ensures p < |s| ==> s[p] != DELIMITER
    ensures Tokens(s[p..]) == Tokens(s[pos..])
  {
    p := pos;
    while p < |s| && s[p] == DELIMITER
      invariant pos <= p <= |s|
      invariant forall i :: pos <= i < p ==> s[i] == DELIMITER
      invariant Tokens(s[p..]) == Tokens(s[pos..])
    {
      assert s[p..][1..] == s[p + 1..];
      p := p + 1;
    }
  }

  /** `scanToken`: the end of the token that starts at `pos`. When `pos` is
      not on a delimiter, `s[pos..p]` is the next token and the rest of the
      stream starts at `p`. */
  method ScanToken(s: string, pos: nat) returns (p: nat)
    requires pos <= |s|
    ensures pos <= p <= |s|
    ensures forall i :: pos <= i < p ==> s[i] != DELIMITER
    ensures p < |s| ==> s[p] == DELIMITER
    ensures pos < |s| && s[pos] != DELIMITER ==>
              pos < p && Tokens(s[pos..]) == [s[pos..p]] + Tokens(s[p..])
  {
    p := pos;
    while p < |s| && s[p] != DELIMITER
      invariant pos <= p <= |s|
      invariant forall i :: pos <= i < p ==> s[i] != DELIMITER
    {
      p := p + 1;
    }
    if pos < |s| && s[pos] != DELIMITER {
      var rest := s[pos..];
      TokenLengthUnique(rest, p - pos);
      assert rest[..p - pos] == s[pos..p];
      assert rest[p - pos..] == s[p..];
    }
  }
}
