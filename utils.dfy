/** `utils.snake_case`: the substitution of the pattern `(?<!^)(?=[A-Z])` by
    `"_"` followed by `.lower()`, the field-name normaliser of every converter. */
module Utils {

  /** A character the class `[A-Z]` of the pattern matches. */
  predicate IsUpper(c: char) {
    'A' <= c <= 'Z'
  }

  /** `str.lower` on one character, for the ASCII letters. */
  function Lower(c: char): (d: char)
    ensures !IsUpper(d)
    ensures !IsUpper(c) ==> d == c
  {
    if IsUpper(c) then (c as int + 32) as char else c
  }

  /** How many characters of `s` are ASCII capitals. */
  function CountUpper(s: string): nat {
    if s == [] then 0 else (if IsUpper(s[0]) then 1 else 0) + CountUpper(s[1..])
  }

  /** The text after the first character: every capital there is lowered
      and gets one `"_"` in front of it. */
  function SnakeTail(t: string): (r: string)
    ensures |r| == |t| + CountUpper(t)
    ensures forall i :: 0 <= i < |r| ==> !IsUpper(r[i])
  {
    if t == [] then []
    else (if IsUpper(t[0]) then ['_', Lower(t[0])] else [Lower(t[0])]) + SnakeTail(t[1..])
  }

  /** `snake_case(s)`: the look-behind `(?<!^)` keeps index 0 from getting an
      underscore, so only the tail is split. */
  function SnakeCase(s: string): (r: string)
    ensures forall i :: 0 <= i < |r| ==> !IsUpper(r[i])
    ensures |r| == |s| + (if s == [] then 0 else CountUpper(s[1..]))
  {
    if s == [] then [] else [Lower(s[0])] + SnakeTail(s[1..])
  }

  lemma {:induction false} SnakeTailSnoc(t: string, c: char)
    ensures SnakeTail(t + [c]) == SnakeTail(t) + (if IsUpper(c) then "_" else "") + [Lower(c)]
  {
    if t == [] {
      assert t + [c] == [c];
    } else {
      assert (t + [c])[0] == t[0];
      assert (t + [c])[1..] == t[1..] + [c];
      SnakeTailSnoc(t[1..], c);
    }
  }

  /** Appending one character appends its lowered form, preceded by one `"_"`
      exactly when it is a capital that is not the first character: an
      underscore goes before every capital except at index 0, and nowhere else. */
  lemma SnakeCaseSnoc(s: string, c: char)
    ensures SnakeCase(s + [c])
            == SnakeCase(s) + (if s != [] && IsUpper(c) then "_" else "") + [Lower(c)]
  {
    if s == [] {
      assert s + [c] == [c];
    } else {
      assert (s + [c])[0] == s[0];
      assert (s + [c])[1..] == s[1..] + [c];
      SnakeTailSnoc(s[1..], c);
    }
  }

  lemma {:induction false} SnakeTailKeepsLower(t: string)
    requires forall i :: 0 <= i < |t| ==> !IsUpper(t[i])
    ensures SnakeTail(t) == t
  {
    if t != [] {
      SnakeTailKeepsLower(t[1..]);
    }
  }

  /** A name without capitals is its own snake case. */
  lemma SnakeCaseKeepsLower(s: string)
    requires forall i :: 0 <= i < |s| ==> !IsUpper(s[i])
    ensures SnakeCase(s) == s
  {
    if s != [] {
      SnakeTailKeepsLower(s[1..]);
    }
  }

  /** Normalising twice is normalising once. */
  lemma SnakeCaseIdempotent(s: string)
    ensures SnakeCase(SnakeCase(s)) == SnakeCase(s)
  {
    SnakeCaseKeepsLower(SnakeCase(s));
  }

  /** `"ID"` becomes `"i_d"`: the capital at index 1 gets an underscore,
      the one at index 0 does not. */
  lemma SnakeCaseTwoCapitals()
    ensures SnakeCase("ID") == "i_d"
  {
    assert SnakeTail("D") == "_d";
  }

  /** `"Name"` becomes `"name"`: a leading capital is only lowered. */
  lemma SnakeCaseLeadingCapital()
    ensures SnakeCase("Name") == "name"
  {
    SnakeTailKeepsLower("ame");
  }
}
