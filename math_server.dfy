/** The `calculate` tool of the math server: shutdown gate, character
    allow-list, `^` to `**` rewrite, evaluation by an external interpreter,
    and error wrapping. */
module MathServer {
  import opened Wrappers
  import opened Shutdown

  /** The characters `calculate` lets through to evaluation (space included). */
  const AllowedChars: set<char> := set c | c in "0123456789+-*/().^ "

  const InvalidCharsMessage: string := "Expression contains invalid characters"
  const CalcErrorPrefix: string := "Error calculating expression: "

  /** The tool's success payload. */
  datatype CalculateResponse = CalculateResponse(result: real, expression: string)

  /** The allow-list check: every character of `s` is in AllowedChars. */
  predicate IsAllowed(s: string)
    ensures IsAllowed(s) <==> (set c | c in s) <= AllowedChars
  {
    forall i :: 0 <= i < |s| ==> s[i] in AllowedChars
  }

  /** Number of occurrences of `c` in `s`. */
  function Count(s: string, c: char): nat {
    if s == [] then 0 else (if s[0] == c then 1 else 0) + Count(s[1..], c)
  }

  /** `s` with every character of `cs` deleted, the rest in order. */
  function Without(s: string, cs: set<char>): string {
    if s == [] then [] else (if s[0] in cs then [] else [s[0]]) + Without(s[1..], cs)
  }

  /** `str.replace("^", "**")`: every `^` becomes `**`. */
  function ReplaceCaret(s: string): (r: string)
    ensures '^' !in r
    ensures |r| == |s| + Count(s, '^')
  {
    if s == [] then []
    else (if s[0] == '^' then "**" else [s[0]]) + ReplaceCaret(s[1..])
  }

  /** The rewrite works character by character: it distributes over concatenation. */
  lemma {:induction false} ReplaceCaretAppend(a: string, b: string)
    ensures ReplaceCaret(a + b) == ReplaceCaret(a) + ReplaceCaret(b)
  {
    if a == [] {
      assert a + b == b;
    } else {
      assert (a + b)[0] == a[0] && (a + b)[1..] == a[1..] + b;
      ReplaceCaretAppend(a[1..], b);
    }
  }

  /** Characters other than `^` and `*` keep their order: deleting the stars
      from the rewritten text gives the input with its stars and carets deleted. */
  lemma {:induction false} ReplaceCaretKeepsOthers(s: string)
    ensures Without(ReplaceCaret(s), {'*'}) == Without(s, {'*', '^'})
  {
    if s != [] {
      var head := if s[0] == '^' then "**" else [s[0]];
      WithoutAppend(head, ReplaceCaret(s[1..]), {'*'});
      ReplaceCaretKeepsOthers(s[1..]);
    }
  }

  lemma {:induction false} WithoutAppend(a: string, b: string, cs: set<char>)
    ensures Without(a + b, cs) == Without(a, cs) + Without(b, cs)
  {
    if a == [] {
      assert a + b == b;
    } else {
      assert (a + b)[0] == a[0] && (a + b)[1..] == a[1..] + b;
      WithoutAppend(a[1..], b, cs);
    }
  }

  /** An expression without `^` is passed on unchanged. */
  lemma {:induction false} ReplaceCaretIdentity(s: string)
    requires '^' !in s
    ensures ReplaceCaret(s) == s
  {
    if s != [] {
      assert s[0] != '^' && '^' !in s[1..];
      ReplaceCaretIdentity(s[1..]);
    }
  }

  /** The rewrite of an allowed expression is still allowed. */
  lemma {:induction false} ReplaceCaretKeepsAllowed(s: string)
    requires IsAllowed(s)
    ensures IsAllowed(ReplaceCaret(s))
  {
    if s != [] {
      assert IsAllowed(s[1..]) by {
        forall i | 0 <= i < |s[1..]| ensures s[1..][i] in AllowedChars {
          assert s[1..][i] == s[i + 1];
        }
      }
      ReplaceCaretKeepsAllowed(s[1..]);
      var head := if s[0] == '^' then "**" else [s[0]];
      var r := head + ReplaceCaret(s[1..]);
      forall i | 0 <= i < |r| ensures r[i] in AllowedChars {
        if i >= |head| {
          assert r[i] == ReplaceCaret(s[1..])[i - |head|];
        }
      }
    }
  }

  /** The `calculate` tool. `evaluate` stands for `eval` followed by `float`,
      an external interpreter that may raise. */
  function Calculate(flag: ShutdownFlag, expression: string,
                     evaluate: string -> Result<real>): (r: Result<CalculateResponse>)
    reads flag
    // The shutdown gate comes first, and its error carries no prefix.
    ensures flag.requested ==> r == Failure(ShuttingDownMessage)
    // Anything outside the allow-list is rejected without being evaluated.
    ensures !flag.requested && !IsAllowed(expression) ==>
              r == Failure(CalcErrorPrefix + InvalidCharsMessage)
    // A success echoes the rewritten expression, not the input, and its value
    // is what the interpreter gave for it.
    ensures r.Success? ==>
              && !flag.requested && IsAllowed(expression)
              && r.value.expression == ReplaceCaret(expression)
              && evaluate(r.value.expression) == Success(r.value.result)
    // Every failure after the gate carries the prefix, followed by the inner message.
    ensures !flag.requested && r.Failure? ==> IsPrefix(CalcErrorPrefix, r.error)
    // An allowed expression whose evaluation succeeds comes back as that success.
    ensures r.Success? <==> !flag.requested && IsAllowed(expression) && evaluate(ReplaceCaret(expression)).Success?
    ensures !flag.requested && IsAllowed(expression) && evaluate(ReplaceCaret(expression)).Success? ==>
              r == Success(CalculateResponse(evaluate(ReplaceCaret(expression)).value, ReplaceCaret(expression)))
    ensures !flag.requested && IsAllowed(expression) && evaluate(ReplaceCaret(expression)).Failure? ==>
              r == Failure(CalcErrorPrefix + evaluate(ReplaceCaret(expression)).error)
  {
    if flag.requested then Failure(ShuttingDownMessage)
    else
      var inner :=
        if !IsAllowed(expression) then Failure(InvalidCharsMessage)
        else
          var rewritten := ReplaceCaret(expression);
          match evaluate(rewritten)
          case Success(v) => Success(CalculateResponse(v, rewritten))
          case Failure(e) => Failure(e);
      WithPrefix(CalcErrorPrefix, inner)
  }

  /** A letter is outside the allow-list; `^` and spaces are inside it. */
  lemma AllowListExamples()
    ensures !IsAllowed("2+a")
    ensures IsAllowed("2 + 2") && IsAllowed("2^3")
    ensures ReplaceCaret("2^3") == "2**3"
  {
    assert "2+a"[2] == 'a';
  }
}
