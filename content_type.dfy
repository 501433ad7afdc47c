/** The test that decides whether a response body is handed to the JSON
    parser: the regular expression `/^application\/(.*\\+)?json/` applied to
    the response's content-type header.

    As written, `\\+` is one or more LITERAL BACKSLASHES, so the optional
    group is "any characters except line terminators, then at least one
    backslash". `application/json` (with or without parameters after it)
    matches; `application/vnd+json` does not. The pattern has no `$`, so it
    only constrains a prefix of the header. */
module ContentType {
  import opened Values

  const MediaPrefix: string := "application/"
  const JsonWord: string := "json"

  /** The characters `.` refuses to match in a JavaScript regular expression
      without the `s` flag. */
  predicate IsLineTerminator(c: char) {
    c == '\n' || c == '\r' || c == '\U{2028}' || c == '\U{2029}'
  }

  ghost predicate NoLineTerminator(t: string) {
    forall k :: 0 <= k < |t| ==> !IsLineTerminator(t[k])
  }

  /** The ways the optional group `(.*\\+)` can be matched in `t` (the part
      of the header after `application/`): a run of non-line-terminators
      ending with a backslash at `i`, followed by `json`. */
  ghost predicate GroupMatchesAt(t: string, i: int) {
    0 <= i < |t| && t[i] == '\\' && StartsWith(t[i + 1..], JsonWord) && NoLineTerminator(t[..i])
  }

  /** What the regular expression accepts, stated as the existence of a
      match, the way a backtracking matcher's `test` is defined. */
  ghost predicate RegexAccepts(s: string) {
    StartsWith(s, MediaPrefix) &&
    var t := s[|MediaPrefix|..];
    StartsWith(t, JsonWord) || exists i :: GroupMatchesAt(t, i)
  }

  /** The single left-to-right scan that decides the group alternative. */
  predicate EscapedJsonAhead(t: string) {
    if |t| == 0 then false
    else if IsLineTerminator(t[0]) then false
    else if t[0] == '\\' && StartsWith(t[1..], JsonWord) then true
    else EscapedJsonAhead(t[1..])
  }

  /** The client's test on the content-type header. An absent header is
      `.test(undefined)`, which tests the string "undefined" and fails. */
  predicate IsJsonContentType(contentType: Option<string>) {
    contentType.Some? &&
    var s := contentType.value;
    StartsWith(s, MediaPrefix) &&
    var t := s[|MediaPrefix|..];
    StartsWith(t, JsonWord) || EscapedJsonAhead(t)
  }

  lemma {:induction false} EscapedJsonAheadCorrect(t: string)
    ensures EscapedJsonAhead(t) <==> exists i :: GroupMatchesAt(t, i)
    decreases |t|
  {
    if |t| == 0 {
    } else if IsLineTerminator(t[0]) {
      forall i | 0 <= i < |t| ensures !GroupMatchesAt(t, i) {
        if i > 0 {
          assert t[..i][0] == t[0];
        }
      }
    } else if t[0] == '\\' && StartsWith(t[1..], JsonWord) {
      assert GroupMatchesAt(t, 0);
    } else {
      var u := t[1..];
      EscapedJsonAheadCorrect(u);
      if EscapedJsonAhead(u) {
        var j :| GroupMatchesAt(u, j);
        assert t[j + 1 + 1..] == u[j + 1..];
        assert t[..j + 1] == [t[0]] + u[..j];
        assert GroupMatchesAt(t, j + 1);
      } else {
        forall i | GroupMatchesAt(t, i) ensures false {
          assert i > 0;
          assert u[i - 1 + 1..] == t[i + 1..];
          assert u[..i - 1] == t[..i][1..];
          assert GroupMatchesAt(u, i - 1);
        }
      }
    }
  }

  /** The client's test is exactly the regular expression's. */
  lemma JsonContentTypeIsRegex(s: string)
    ensures IsJsonContentType(Some(s)) <==> RegexAccepts(s)
  {
    if StartsWith(s, MediaPrefix) {
      EscapedJsonAheadCorrect(s[|MediaPrefix|..]);
    }
  }

  /** Without a backslash after `application/`, only the `json` alternative
      is left. */
  lemma {:induction false} NoBackslashNoEscapedJson(t: string)
    requires forall k :: 0 <= k < |t| ==> t[k] != '\\'
    ensures !EscapedJsonAhead(t)
    decreases |t|
  {
    if |t| > 0 {
      NoBackslashNoEscapedJson(t[1..]);
    }
  }

  lemma PlainJsonIsJson()
    ensures IsJsonContentType(Some("application/json"))
    ensures IsJsonContentType(Some("application/json; charset=utf-8"))
  {
    assert "application/json" == MediaPrefix + JsonWord;
    assert "application/json; charset=utf-8" == MediaPrefix + JsonWord + "; charset=utf-8";
  }

  /** The structured-syntax suffix `+json` is not recognised: the body of such
      a response is never parsed. */
  lemma SuffixJsonIsNotJson()
    ensures !IsJsonContentType(Some("application/vnd+json"))
    ensures !IsJsonContentType(Some("application/problem+json"))
  {
    assert "application/vnd+json" == MediaPrefix + "vnd+json";
    assert "application/problem+json" == MediaPrefix + "problem+json";
    NoBackslashNoEscapedJson("vnd+json");
    NoBackslashNoEscapedJson("problem+json");
  }

  /** What the group does accept: a backslash right before `json`. */
  lemma BackslashJsonIsJson()
    ensures IsJsonContentType(Some("application/x\\json"))
  {
    assert "application/x\\json" == MediaPrefix + "x\\json";
    assert "x\\json"[2..] == JsonWord;
  }

  lemma OtherMediaTypesAreNotJson()
    ensures !IsJsonContentType(None)
    ensures !IsJsonContentType(Some("text/json"))
    ensures !IsJsonContentType(Some("application/xml"))
  {
    assert "application/xml" == MediaPrefix + "xml";
    NoBackslashNoEscapedJson("xml");
  }
}
