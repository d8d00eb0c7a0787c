/**
 lodash's `snakeCase` and `camelCase` on the keys the proof server exchanges: ASCII words of the
 shape `lower+ (Upper lower+)*` in camel case and `lower+ (_ lower lower+)*` in snake case. A later
 word has at least two letters on both sides, because lodash reads `aBC` as the words `a` and `BC`.
 */
module KeyCase {
  import opened Sequences

  predicate IsLower(c: char) {
    'a' <= c <= 'z'
  }

  predicate IsUpper(c: char) {
    'A' <= c <= 'Z'
  }

  function ToLower(c: char): char {
    if IsUpper(c) then (c as int + 32) as char else c
  }

  function ToUpper(c: char): char {
    if IsLower(c) then (c as int - 32) as char else c
  }

  function SnakeCase(s: string): string {
    if s == "" then ""
    else (if IsUpper(s[0]) then ['_', ToLower(s[0])] else [s[0]]) + SnakeCase(s[1..])
  }

  function CamelCase(s: string): string {
    if s == "" then ""
    else if s[0] == '_' && |s| > 1 then [ToUpper(s[1])] + CamelCase(s[2..])
    else [s[0]] + CamelCase(s[1..])
  }

  /** Lower-case letters and word starts, each word of at least two letters. */
  predicate CamelRest(s: string) {
    s == ""
    || ((IsLower(s[0]) || (IsUpper(s[0]) && |s| > 1 && IsLower(s[1]))) && CamelRest(s[1..]))
  }

  predicate SnakeRest(s: string) {
    s == ""
    || ((IsLower(s[0]) || (s[0] == '_' && |s| > 2 && IsLower(s[1]) && IsLower(s[2]))) && SnakeRest(s[1..]))
  }

  predicate CamelKey(s: string) {
    s != "" && IsLower(s[0]) && CamelRest(s)
  }

  predicate SnakeKey(s: string) {
    s != "" && IsLower(s[0]) && SnakeRest(s)
  }

  lemma {:induction false} SnakeThenCamelRest(s: string)
    requires CamelRest(s)
    ensures SnakeRest(SnakeCase(s)) && CamelCase(SnakeCase(s)) == s
    ensures s != "" ==> SnakeCase(s) != "" && (IsLower(s[0]) ==> SnakeCase(s)[0] == s[0])
  {
    if s == "" {
    } else if IsUpper(s[0]) {
      SnakeThenCamelRest(s[1..]);
      WordStart(ToLower(s[0]), SnakeCase(s[1..]));
      assert SnakeCase(s) == ['_', ToLower(s[0])] + SnakeCase(s[1..]);
      assert s == [s[0]] + s[1..];
    } else {
      SnakeThenCamelRest(s[1..]);
      assert SnakeCase(s)[1..] == SnakeCase(s[1..]);
    }
  }

  lemma WordStart(c: char, rest: string)
    requires IsLower(c) && rest != "" && IsLower(rest[0]) && SnakeRest(rest)
    ensures SnakeRest(['_', c] + rest)
    ensures CamelCase(['_', c] + rest) == [ToUpper(c)] + CamelCase(rest)
  {
    var word := ['_', c] + rest;
    assert word[1..] == [c] + rest && ([c] + rest)[1..] == rest && word[2..] == rest;
  }

  lemma {:induction false} CamelThenSnakeRest(s: string)
    requires SnakeRest(s)
    ensures CamelRest(CamelCase(s)) && SnakeCase(CamelCase(s)) == s
    ensures s != "" ==> CamelCase(s) != "" && (IsLower(s[0]) ==> CamelCase(s)[0] == s[0])
    decreases |s|
  {
    if s == "" {
    } else if s[0] == '_' {
      var rest := s[2..];
      assert rest == s[1..][1..];
      CamelThenSnakeRest(rest);
      assert CamelCase(s) == [ToUpper(s[1])] + CamelCase(rest);
      assert CamelCase(s)[1..] == CamelCase(rest);
      assert s == ['_', s[1]] + rest;
    } else {
      CamelThenSnakeRest(s[1..]);
      assert CamelCase(s)[1..] == CamelCase(s[1..]);
    }
  }

  /** On canonical keys the two conversions undo each other, so neither merges two keys. */
  lemma KeysRoundTrip(camel: string, snake: string)
    ensures CamelKey(camel) ==> SnakeKey(SnakeCase(camel)) && CamelCase(SnakeCase(camel)) == camel
    ensures SnakeKey(snake) ==> CamelKey(CamelCase(snake)) && SnakeCase(CamelCase(snake)) == snake
  {
    if CamelKey(camel) {
      SnakeThenCamelRest(camel);
    }
    if SnakeKey(snake) {
      CamelThenSnakeRest(snake);
    }
  }

  /** `b` is the lower-case form of `a`. */
  predicate LowerCased(a: char, b: char) {
    IsLower(b) && (a == b || (IsUpper(a) && a as int - 'A' as int == b as int - 'a' as int))
  }

  /** Snake case keeps every letter, in lower case: it adds nothing but separators. */
  lemma {:induction false} LettersKept(s: string)
    requires CamelRest(s)
    ensures var letters := Filter(SnakeCase(s), c => c != '_');
      |letters| == |s| && forall i :: 0 <= i < |s| ==> LowerCased(s[i], letters[i])
  {
    if s != "" {
      LettersKept(s[1..]);
      var isLetter := c => c != '_';
      var word := if IsUpper(s[0]) then ['_', ToLower(s[0])] else [s[0]];
      FilterAppend(word, SnakeCase(s[1..]), isLetter);
      assert Filter(word, isLetter) == [if IsUpper(s[0]) then ToLower(s[0]) else s[0]] by {
        assert word[1..] == if IsUpper(s[0]) then [ToLower(s[0])] else [];
      }
    }
  }
}
