/**
 * Placeholder substitution in URL templates: `{name}` in a template is
 * replaced by the value given for `name`. The helper that does this in the
 * client is not part of this model; `Substitute` states the behaviour the
 * routing layer relies on, and the lemmas below are proved of that definition.
 */
module Template {

  import opened Strings

  /** How a key is written inside a template. */
  function Placeholder(key: string): string {
    "{" + key + "}"
  }

  /** The token object handed to the helper, its keys in insertion order. */
  type Tokens = seq<(string, string)>

  /**
   * For each token in turn, every `{key}` in the current text is replaced by
   * the token's value. A placeholder without a token is left in place; a token
   * without a placeholder changes nothing.
   */
  function Substitute(template: string, tokens: Tokens): string
    decreases |tokens|
  {
    if tokens == [] then template
    else Substitute(ReplaceAll(template, Placeholder(tokens[0].0), tokens[0].1), tokens[1..])
  }

  /**
   * A template with one placeholder, and no other `{` before or after it,
   * becomes the text around the placeholder with the value in its place.
   */
  lemma SubstituteOne(prefix: string, key: string, suffix: string, value: string)
    requires '{' !in prefix && '{' !in suffix
    ensures Substitute(prefix + Placeholder(key) + suffix, [(key, value)]) == prefix + value + suffix
  {
    var token := Placeholder(key);
    assert token[0] == '{';
    assert prefix + token + suffix == prefix + (token + suffix);
    ReplaceAllSkips(prefix, token + suffix, token, value);
    ReplaceAllHit(token, suffix, value);
    ReplaceAllSkips(suffix, [], token, value);
    assert suffix + [] == suffix;
    calc {
      Substitute(prefix + token + suffix, [(key, value)]);
      Substitute(ReplaceAll(prefix + token + suffix, token, value), []);
      prefix + (value + (suffix + ReplaceAll([], token, value)));
      prefix + value + suffix;
    }
  }

  /**
   * The same for a template made of a root, a path, the placeholder and a
   * suffix, none of them holding a `{` of their own.
   */
  lemma SubstituteAfterPath(root: string, path: string, key: string, suffix: string, value: string)
    requires '{' !in root && '{' !in path && '{' !in suffix
    ensures Substitute(root + path + Placeholder(key) + suffix, [(key, value)]) == root + path + value + suffix
  {
    SubstituteOne(root + path, key, suffix, value);
  }

  /** A token whose placeholder does not occur in the template is ignored. */
  lemma SubstituteIgnoresUnusedToken(template: string, key: string, value: string)
    requires !Occurs(Placeholder(key), template)
    ensures Substitute(template, [(key, value)]) == template
  {
    ReplaceAllAbsent(template, Placeholder(key), value);
  }

  /**
   * The documented examples: `{a}` is replaced when a value is supplied for
   * `a`, and stays in the URL when none is.
   */
  lemma SubstituteExamples()
    ensures Substitute("/x/{a}/y", [("a", "123")]) == "/x/123/y"
    ensures Substitute("/x/{a}/y", []) == "/x/{a}/y"
  {
    assert "/x/{a}/y" == "/x/" + Placeholder("a") + "/y";
    SubstituteOne("/x/", "a", "/y", "123");
  }
}
