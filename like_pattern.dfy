/**
 * LIKE-value translation of the Doctrine ORM query.
 *
 * A filter value written with the backend-agnostic wildcard `*` is split into
 * tokens by the parent query's `parseLike`; `buildLikeValue` maps every token
 * that is exactly `*` to SQL's `%`, keeps every other token, and joins the
 * tokens again in their original order. Literal `%` and `_` in the value are
 * passed through unescaped.
 */
module LikePattern {

  /** The concatenation of the tokens, in order (PHP's `implode('', ...)`). */
  function Concat(tokens: seq<string>): (s: string)
  {
    if tokens == [] then "" else tokens[0] + Concat(tokens[1..])
  }

  /** The per-token rewrite of the `array_map` callback. */
  function NativeToken(token: string): string
  {
    if token == "*" then "%" else token
  }

  /** `array_map` of NativeToken over the tokens, then `implode('', ...)`. */
  function RewriteTokens(tokens: seq<string>): (s: string)
  {
    if tokens == [] then "" else NativeToken(tokens[0]) + RewriteTokens(tokens[1..])
  }

  /** The character-level reference: every `*` becomes `%`, nothing else moves. */
  function ReplaceWildcards(value: string): (r: string)
    ensures |r| == |value|
    ensures forall i :: 0 <= i < |value| ==> r[i] == (if value[i] == '*' then '%' else value[i])
  {
    seq(|value|, i requires 0 <= i < |value| => if value[i] == '*' then '%' else value[i])
  }

  /**
   * What the tokenizer is assumed to deliver: tokens that join back to the
   * value, with every `*` standing alone as a token of its own.
   */
  ghost predicate IsLikeTokenization(value: string, tokens: seq<string>)
  {
    Concat(tokens) == value &&
    forall i :: 0 <= i < |tokens| && '*' in tokens[i] ==> tokens[i] == "*"
  }

  /**
   * A tokenizer with the assumed shape: maximal runs of non-`*` characters,
   * and each `*` as a separate token. The parent query's own `parseLike` is
   * not part of this model; only IsLikeTokenization is relied on below.
   */
  function ParseLike(value: string): (tokens: seq<string>)
    ensures IsLikeTokenization(value, tokens)
    ensures forall i :: 0 <= i < |tokens| ==> tokens[i] != ""
  {
    if value == [] then []
    else if value[0] == '*' then ["*"] + ParseLike(value[1..])
    else
      var rest := ParseLike(value[1..]);
      if rest != [] && rest[0] != "*" then
        ConcatCons([[value[0]] + rest[0]] + rest[1..]);
        assert ([[value[0]] + rest[0]] + rest[1..])[1..] == rest[1..];
        [[value[0]] + rest[0]] + rest[1..]
      else
        ConcatCons([[value[0]]] + rest);
        assert ([[value[0]]] + rest)[1..] == rest;
        [[value[0]]] + rest
  }

  /** Unfolds Concat once on a non-empty token list. */
  lemma ConcatCons(tokens: seq<string>)
    requires tokens != []
    ensures Concat(tokens) == tokens[0] + Concat(tokens[1..])
  {
  }

  /** The character-level rewrite distributes over concatenation. */
  lemma ReplaceWildcardsAppend(a: string, b: string)
    ensures ReplaceWildcards(a + b) == ReplaceWildcards(a) + ReplaceWildcards(b)
  {
  }

  /**
   * For any tokenization with isolated `*` tokens, rewriting the tokens
   * replaces exactly the `*` characters of the joined value by `%`.
   */
  lemma {:induction false} RewriteIsReplaceWildcards(tokens: seq<string>)
    requires forall i :: 0 <= i < |tokens| && '*' in tokens[i] ==> tokens[i] == "*"
    ensures RewriteTokens(tokens) == ReplaceWildcards(Concat(tokens))
  {
    if tokens != [] {
      var t := tokens[0];
      assert forall i :: 0 <= i < |tokens[1..]| && '*' in tokens[1..][i] ==> tokens[1..][i] == "*" by {
        forall i | 0 <= i < |tokens[1..]| && '*' in tokens[1..][i] ensures tokens[1..][i] == "*" {
          assert tokens[1..][i] == tokens[i + 1];
        }
      }
      RewriteIsReplaceWildcards(tokens[1..]);
      ReplaceWildcardsAppend(t, Concat(tokens[1..]));
      if t == "*" {
        assert ReplaceWildcards(t) == "%";
      } else {
        assert '*' !in t;
        assert ReplaceWildcards(t) == t;
      }
    }
  }

  /**
   * `buildLikeValue`: the value with every `*` turned into `%`, every other
   * character (including a literal `%` or `_`) kept in place.
   */
  function BuildLikeValue(value: string): (r: string)
    ensures |r| == |value|
    ensures forall i :: 0 <= i < |value| ==> r[i] == (if value[i] == '*' then '%' else value[i])
    ensures '*' !in r
    ensures '*' !in value ==> r == value
  {
    var tokens := ParseLike(value);
    RewriteIsReplaceWildcards(tokens);
    RewriteTokens(tokens)
  }

  /**
   * The result does not depend on which tokenizer produced the tokens, as
   * long as the tokens join back to the value and isolate every `*`.
   */
  lemma LikeValueIndependentOfTokenizer(value: string, tokens: seq<string>)
    requires IsLikeTokenization(value, tokens)
    ensures RewriteTokens(tokens) == BuildLikeValue(value)
  {
    RewriteIsReplaceWildcards(tokens);
  }

  /** Tokens none of which is a lone `*` come out joined and otherwise unchanged. */
  lemma {:induction false} RewriteWithoutWildcards(tokens: seq<string>)
    requires forall i :: 0 <= i < |tokens| ==> tokens[i] != "*"
    ensures RewriteTokens(tokens) == Concat(tokens)
  {
    if tokens != [] {
      RewriteWithoutWildcards(tokens[1..]);
    }
  }

  /** `a*b*c` becomes `a%b%c`. */
  lemma LikeExample()
    ensures BuildLikeValue("a*b*c") == "a%b%c"
  {
  }
}
