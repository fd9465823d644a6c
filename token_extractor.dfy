/**
 * `GameJoltArchiver.extract_token_from_url`: the download token carried in
 * the query string of the URL the build-download endpoint answers with,
 * read through `parse_qs` with its default flags.
 */
module TokenExtractor {
  import opened Wrappers
  import opened Text
  import opened Urls

  const TokenKey: string := "token"
  const TokenHost: string := "gamejolt.net"

  /** `field.split('=', 1)` when the field holds an `=`, else None. */
  function SplitField(field: string): Option<(string, string)> {
    var k := IndexFrom(field, '=', 0);
    if k == |field| then None else Some((field[..k], field[k + 1..]))
  }

  /**
   * The loop of `parse_qsl` over the `&`-separated fields: empty fields and
   * fields without `=` are skipped, and so are fields whose value is blank
   * (`keep_blank_values` is false); `+` becomes a space, the only decoding
   * modelled.
   */
  function FieldPairs(fields: seq<string>): (pairs: seq<(string, string)>)
    ensures forall i :: 0 <= i < |pairs| ==> pairs[i].1 != ""
    decreases |fields|
  {
    if fields == [] then []
    else
      var rest := FieldPairs(fields[1..]);
      if fields[0] == "" then rest
      else
        match SplitField(fields[0])
        case None => rest
        case Some((name, value)) =>
          if value == "" then rest else [(ReplaceChar(name, '+', ' '), ReplaceChar(value, '+', ' '))] + rest
  }

  /** `parse_qsl(query)` */
  function ParseQsl(query: string): seq<(string, string)> {
    FieldPairs(Split(query, '&'))
  }

  /** The values given for `name`, in order of appearance. */
  function ValuesOf(pairs: seq<(string, string)>, name: string): seq<string>
    decreases |pairs|
  {
    if pairs == [] then []
    else (if pairs[0].0 == name then [pairs[0].1] else []) + ValuesOf(pairs[1..], name)
  }

  /** The dictionary `parse_qs` builds: each name with the list of its values. */
  function Collect(pairs: seq<(string, string)>): (params: map<string, seq<string>>)
    ensures forall name :: name in params ==> params[name] != []
    decreases |pairs|
  {
    if pairs == [] then map[]
    else
      var params := Collect(pairs[..|pairs| - 1]);
      var (name, value) := pairs[|pairs| - 1];
      params[name := (if name in params then params[name] else []) + [value]]
  }

  /** `parse_qs(query)` */
  function ParseQs(query: string): map<string, seq<string>> {
    Collect(ParseQsl(query))
  }

  lemma {:induction false} ValuesOfAppend(pairs: seq<(string, string)>, p: (string, string), name: string)
    ensures ValuesOf(pairs + [p], name) == ValuesOf(pairs, name) + (if p.0 == name then [p.1] else [])
    decreases |pairs|
  {
    if pairs == [] {
      assert [p][1..] == [];
    } else {
      assert (pairs + [p])[1..] == pairs[1..] + [p];
      ValuesOfAppend(pairs[1..], p, name);
    }
  }

  /** `parse_qs` keeps every value of every name, in order, and nothing else. */
  lemma {:induction false} CollectHoldsValues(pairs: seq<(string, string)>, name: string)
    ensures name in Collect(pairs) <==> ValuesOf(pairs, name) != []
    ensures name in Collect(pairs) ==> Collect(pairs)[name] == ValuesOf(pairs, name)
    decreases |pairs|
  {
    if pairs != [] {
      var init := pairs[..|pairs| - 1];
      var p := pairs[|pairs| - 1];
      assert init + [p] == pairs;
      CollectHoldsValues(init, name);
      ValuesOfAppend(init, p, name);
    }
  }

  // ---------------------------------------------------------------------------
  // extract_token_from_url

  /** `params[key][0]` when `key in params`, else None. */
  function FirstOf(params: map<string, seq<string>>, key: string): Option<string> {
    if key in params && params[key] != [] then Some(params[key][0]) else None
  }

  /** The token of a URL, or None; both branches of the source are kept. */
  function ExtractToken(u: Url): Option<string> {
    var found := FirstOf(ParseQs(u.query), TokenKey);
    if found.Some? then found
    else if u.netloc == TokenHost && u.path == "" then FirstOf(ParseQs(u.query), TokenKey)
    else None
  }

  /** The first value given for `name`, searched from the front. */
  function FirstValue(pairs: seq<(string, string)>, name: string): Option<string>
    decreases |pairs|
  {
    if pairs == [] then None
    else if pairs[0].0 == name then Some(pairs[0].1)
    else FirstValue(pairs[1..], name)
  }

  lemma {:induction false} FirstValueIsHeadOfValues(pairs: seq<(string, string)>, name: string)
    ensures FirstValue(pairs, name) == if ValuesOf(pairs, name) == [] then None else Some(ValuesOf(pairs, name)[0])
    decreases |pairs|
  {
    if pairs != [] {
      FirstValueIsHeadOfValues(pairs[1..], name);
    }
  }

  /** `FirstValue` finds the earliest pair with the name. */
  lemma {:induction false} FirstValueIsEarliest(pairs: seq<(string, string)>, name: string, t: string)
    ensures FirstValue(pairs, name) == Some(t) <==>
      exists i :: 0 <= i < |pairs| && pairs[i] == (name, t) && forall j :: 0 <= j < i ==> pairs[j].0 != name
    decreases |pairs|
  {
    if pairs != [] {
      FirstValueIsEarliest(pairs[1..], name, t);
      if pairs[0].0 != name {
        if FirstValue(pairs, name) == Some(t) {
          var i :| 0 <= i < |pairs[1..]| && pairs[1..][i] == (name, t)
            && forall j :: 0 <= j < i ==> pairs[1..][j].0 != name;
          assert pairs[i + 1] == (name, t);
          assert forall j :: 0 <= j < i + 1 ==> pairs[j].0 != name by {
            forall j | 0 <= j < i + 1 ensures pairs[j].0 != name {
              if j > 0 { assert pairs[j] == pairs[1..][j - 1]; }
            }
          }
        }
        if exists i :: 0 <= i < |pairs| && pairs[i] == (name, t) && forall j :: 0 <= j < i ==> pairs[j].0 != name {
          var i :| 0 <= i < |pairs| && pairs[i] == (name, t) && forall j :: 0 <= j < i ==> pairs[j].0 != name;
          assert i > 0;
          assert pairs[1..][i - 1] == (name, t);
          assert forall j :: 0 <= j < i - 1 ==> pairs[1..][j].0 != name by {
            forall j | 0 <= j < i - 1 ensures pairs[1..][j].0 != name {
              assert pairs[1..][j] == pairs[j + 1];
            }
          }
        }
      } else {
        if exists i :: 0 <= i < |pairs| && pairs[i] == (name, t) && forall j :: 0 <= j < i ==> pairs[j].0 != name {
          var i :| 0 <= i < |pairs| && pairs[i] == (name, t) && forall j :: 0 <= j < i ==> pairs[j].0 != name;
          assert i == 0;
        }
      }
    }
  }

  /**
   * The whole extraction is "the first non-blank `token` value of the
   * query": the second branch re-parses the same query and so never finds
   * a token the first one missed.
   */
  lemma ExtractTokenIsFirstToken(u: Url)
    ensures ExtractToken(u) == FirstValue(ParseQsl(u.query), TokenKey)
  {
    CollectHoldsValues(ParseQsl(u.query), TokenKey);
    FirstValueIsHeadOfValues(ParseQsl(u.query), TokenKey);
  }

  /**
   * The token is the value of the earliest `token=` field with a non-empty
   * value; a token, when found, is never blank.
   */
  lemma ExtractTokenSpec(u: Url, t: string)
    ensures ExtractToken(u) == Some(t) <==>
      exists i :: 0 <= i < |ParseQsl(u.query)| && ParseQsl(u.query)[i] == (TokenKey, t)
        && forall j :: 0 <= j < i ==> ParseQsl(u.query)[j].0 != TokenKey
    ensures ExtractToken(u) == Some(t) ==> t != ""
  {
    ExtractTokenIsFirstToken(u);
    FirstValueIsEarliest(ParseQsl(u.query), TokenKey, t);
  }

  /** The network location and the path never change the token found. */
  lemma ExtractTokenIgnoresLocation(u: Url, netloc: string, path: string)
    ensures ExtractToken(u) == ExtractToken(u.(netloc := netloc, path := path))
  {
    ExtractTokenIsFirstToken(u);
    ExtractTokenIsFirstToken(u.(netloc := netloc, path := path));
  }

  /** A `token=` field with an empty value is passed over for a later one. */
  lemma BlankTokenSkipped(t: string)
    requires t != "" && '&' !in t && '+' !in t
    ensures ExtractToken(Url("https", TokenHost, "", "token=&token=" + t)) == Some(t)
  {
    var q := "token=&token=" + t;
    assert q == "token=" + ['&'] + ("token=" + t);
    SplitAtSeparator("token=", "token=" + t, '&');
    assert '&' !in "token=" + t;
    SplitWithoutSeparator("token=" + t, '&');
    IndexFromIs("token=", '=', 0, 5);
    assert "token="[..5] == "token" && "token="[6..] == "";
    assert SplitField("token=") == Some(("token", ""));
    IndexFromIs("token=" + t, '=', 0, 5);
    assert ("token=" + t)[..5] == "token";
    assert ("token=" + t)[6..] == t;
    assert SplitField("token=" + t) == Some(("token", t));
    assert ReplaceChar(t, '+', ' ') == t;
    assert ReplaceChar("token", '+', ' ') == "token";
    var fields := ["token=", "token=" + t];
    assert Split(q, '&') == fields;
    assert fields[1..] == ["token=" + t] && fields[1..][1..] == [];
    assert FieldPairs(fields[1..]) == [(TokenKey, t)];
    assert ParseQsl(q) == [(TokenKey, t)];
    ExtractTokenIsFirstToken(Url("https", TokenHost, "", q));
  }
}
