/** The pure helpers of the ingestion dropbox
    src/core-plugins/jupyter-api/1/dss/reporting-plugins/jupyter-uploader-api/dataset-uploader-api.py:
    the parameter values, splitting a session token, splitting a
    `/SPACE/CODE` identifier, the "exactly one hit" rule of its searches and
    the rule that turns a parameter into a property value. */
module UploaderParsing {
  import opened Wrappers

  // ---- parameter values ----

  /** A value of the request's parameter map. Lists, maps and other
      non-text values carry the string the platform gives them when the
      script calls `unicode` on them. */
  datatype Value =
    | Null
    | Text(s: string)
    | Items(elems: seq<Value>, shown: string)
    | Dict(entries: map<string, Value>, shown: string)
    | Other(shown: string)

  /** `m.get(key)` on a parameter map: `None` for a missing key. */
  function Get(m: map<string, Value>, key: string): Value {
    if key in m then m[key] else Null
  }

  /** `unicode(v)`: `None` becomes the four letters "None". */
  function UnicodeOf(v: Value): string {
    match v
    case Null => "None"
    case Text(s) => s
    case Items(_, shown) => shown
    case Dict(_, shown) => shown
    case Other(shown) => shown
  }

  /** The value `registerContainer` stores for a parameter: its `unicode`
      form, except that an empty string is stored as `None`. */
  function PropertyValueOf(v: Value): (r: Option<string>)
    ensures r == None <==> UnicodeOf(v) == ""
    ensures r != None ==> r.value == UnicodeOf(v)
  {
    var shown := UnicodeOf(v);
    if shown == "" then None else Some(shown)
  }

  /** A missing parameter is stored as the text "None", not as `None`; the
      empty text is stored as `None`; any other text is stored as it is. */
  lemma PropertyValueCases(s: string)
    ensures PropertyValueOf(Null) == Some("None")
    ensures PropertyValueOf(Text("")) == None
    ensures s != "" ==> PropertyValueOf(Text(s)) == Some(s)
  {
  }

  // ---- scanning helpers ----

  /** The longest prefix of `s` without `c`. */
  function TakeUntil(s: string, c: char): (r: string)
    ensures r <= s && c !in r
    ensures |r| < |s| ==> s[|r|] == c
  {
    if s == [] || s[0] == c then [] else [s[0]] + TakeUntil(s[1..], c)
  }

  /** A string without `c` is its own longest prefix without `c`. */
  lemma TakeUntilAbsent(s: string, c: char)
    requires c !in s
    ensures TakeUntil(s, c) == s
  {
  }

  /** The position of the last `c` in `s`, if any. */
  function LastIndexOf(s: string, c: char): (r: Option<nat>)
    ensures r == None <==> c !in s
    ensures r != None ==> r.value < |s| && s[r.value] == c && c !in s[r.value + 1..]
  {
    if s == [] then None
    else if s[|s| - 1] == c then Some(|s| - 1)
    else
      var r := LastIndexOf(s[..|s| - 1], c);
      assert s == s[..|s| - 1] + [s[|s| - 1]];
      if r == None then None
      else
        assert s[r.value + 1..] == s[..|s| - 1][r.value + 1..] + [s[|s| - 1]];
        r
  }

  // ---- get_username_sessionid ----

  /** Dropping a prefix of the longest prefix without `c` gives the
      longest prefix without `c` of what is left. */
  lemma {:induction false} TakeUntilDrop(s: string, c: char, j: nat)
    requires j <= |TakeUntil(s, c)|
    ensures TakeUntil(s[j..], c) == TakeUntil(s, c)[j..]
    decreases j
  {
    if j > 0 {
      assert s[1..][j - 1..] == s[j..];
      TakeUntilDrop(s[1..], c, j - 1);
    }
  }

  /** `get_username_sessionid(token)`: the match of `(.*)-([^-]*)` at the
      start of the token. `.` does not match a newline, so the dash that
      separates the two groups is the last dash of the first line; the
      second group then runs to the next dash or the end of the token.
      `None` when the first line holds no dash. */
  function UsernameSessionId(token: string): (r: Option<(string, string)>)
    ensures r == None <==> '-' !in TakeUntil(token, '\n')
    ensures r != None ==>
              var k := |r.value.0|;
              && k < |token| && token[..k] == r.value.0 && token[k] == '-'
              // the username is on the first line, and no dash follows it there
              && '\n' !in r.value.0
              && '-' !in TakeUntil(token[k + 1..], '\n')
              // the session id is the longest run without a dash after it
              && r.value.1 <= token[k + 1..] && '-' !in r.value.1
              && (k + 1 + |r.value.1| == |token| || token[k + 1 + |r.value.1|] == '-')
  {
    var firstLine := TakeUntil(token, '\n');
    match LastIndexOf(firstLine, '-')
    case None => None
    case Some(k) =>
      var sessionId := TakeUntil(token[k + 1..], '-');
      assert token[..k] == firstLine[..k];
      TakeUntilDrop(token, '\n', k + 1);
      assert token[k + 1..][|sessionId|..] == token[k + 1 + |sessionId|..];
      Some((token[..k], sessionId))
  }

  /** When no newline comes before the last dash, the split is exact: it
      fails only when the token holds no dash, and otherwise
      `username + "-" + sessionId` is the whole token and the session id
      holds no dash, so every earlier dash stays in the username. What
      follows the last dash, a final newline included, is the session id. */
  lemma SplitAtLastDash(token: string)
    requires LastIndexOf(token, '-') != None ==> '\n' !in token[..LastIndexOf(token, '-').value]
    ensures UsernameSessionId(token) == None <==> '-' !in token
    ensures UsernameSessionId(token) != None ==>
              && UsernameSessionId(token).value.0 + "-" + UsernameSessionId(token).value.1 == token
              && '-' !in UsernameSessionId(token).value.1
  {
    var last := LastIndexOf(token, '-');
    if last != None {
      var k := last.value;
      UsernameAtLastDash(token, k);
      SplitAround(token, k);
    }
  }

  /** With the last dash at `k` and no newline before it, the username is
      everything before `k` and the session id everything after it. */
  lemma UsernameAtLastDash(token: string, k: nat)
    requires k < |token| && token[k] == '-' && '-' !in token[k + 1..] && '\n' !in token[..k]
    ensures UsernameSessionId(token) == Some((token[..k], token[k + 1..]))
  {
    var firstLine := TakeUntil(token, '\n');
    FirstLineReaches(token, '\n', k);
    TakeUntilDrop(token, '\n', k + 1);
    NotInPrefix(firstLine[k + 1..], token[k + 1..], '-');
    LastIndexOfIs(firstLine, '-', k);
    TakeUntilAbsent(token[k + 1..], '-');
  }

  /** What a string lacks, its prefixes lack too. */
  lemma NotInPrefix(a: string, b: string, c: char)
    requires a <= b && c !in b
    ensures c !in a
  {
    forall i | 0 <= i < |a| ensures a[i] != c {
      assert a[i] == b[i];
    }
  }

  /** A string is what comes before position `k`, the character at `k`,
      and what comes after. */
  lemma SplitAround(s: string, k: nat)
    requires k < |s|
    ensures s[..k] + [s[k]] + s[k + 1..] == s
  {
  }

  /** The longest prefix without `c` reaches past position `k` when no `c`
      occurs up to and including `k`. */
  lemma FirstLineReaches(s: string, c: char, k: nat)
    requires k < |s| && s[k] != c && c !in s[..k]
    ensures |TakeUntil(s, c)| > k
  {
  }

  /** A `c` at `k` with no `c` after it is the last `c`. */
  lemma LastIndexOfIs(s: string, c: char, k: nat)
    requires k < |s| && s[k] == c && c !in s[k + 1..]
    ensures LastIndexOf(s, c) == Some(k)
  {
  }

  /** Earlier dashes stay in the username: "a-b-c" splits into "a-b"
      and "c". */
  lemma SplitKeepsEarlierDashes()
    ensures UsernameSessionId("a-b-c") == Some(("a-b", "c"))
  {
    var token := "a-b-c";
    assert token[..3] == "a-b" && token[4..] == "c";
    UsernameAtLastDash(token, 3);
  }

  /** A token whose only newline comes last keeps that newline in the
      session id. */
  lemma SplitKeepsFinalNewline()
    ensures UsernameSessionId("u-a\n") == Some(("u", "a\n"))
  {
    var token := "u-a\n";
    assert token[..1] == "u" && token[2..] == "a\n";
    UsernameAtLastDash(token, 1);
  }

  /** With a newline before the last dash the split is not the last dash
      of the token: the session id reaches past the newline up to the next
      dash. */
  lemma SplitStopsAtFirstLine()
    ensures UsernameSessionId("a-b\nc-d") == Some(("a", "b\nc"))
  {
    var token := "a-b\nc-d";
    TakeUntilPrefix("a-b", "\nc-d", '\n');
    assert "a-b" + "\nc-d" == token;
    assert TakeUntil(token, '\n') == "a-b";
    assert LastIndexOf("a-b", '-') == Some(1);
    TakeUntilPrefix("b\nc", "-d", '-');
    assert "b\nc" + "-d" == token[2..];
    assert TakeUntil(token[2..], '-') == "b\nc";
    assert token[..1] == "a";
  }

  // ---- identifier.split("/") ----

  /** `sep.join(fields)` */
  function JoinWith(fields: seq<string>, sep: char): string
    requires |fields| >= 1
  {
    if |fields| == 1 then fields[0] else fields[0] + [sep] + JoinWith(fields[1..], sep)
  }

  /** The number of times `c` occurs in `s`. */
  function Count(s: string, c: char): nat {
    if s == [] then 0 else (if s[0] == c then 1 else 0) + Count(s[1..], c)
  }

  /** `s.split(sep)`: the fields between separators; a string with `n`
      separators has `n + 1` fields, and joining them gives `s` back. */
  function Split(s: string, sep: char): (fields: seq<string>)
    ensures |fields| >= 1
    ensures forall i :: 0 <= i < |fields| ==> sep !in fields[i]
    ensures JoinWith(fields, sep) == s
    decreases |s|
  {
    var head := TakeUntil(s, sep);
    if |head| == |s| then
      [s]
    else
      var rest := Split(s[|head| + 1..], sep);
      assert s == head + [sep] + s[|head| + 1..];
      [head] + rest
  }

  /** Splitting a joined list of fields that hold no separator gives the
      fields back. */
  lemma {:induction false} SplitOfJoin(fields: seq<string>, sep: char)
    requires |fields| >= 1
    requires forall i :: 0 <= i < |fields| ==> sep !in fields[i]
    ensures Split(JoinWith(fields, sep), sep) == fields
    decreases |fields|
  {
    if |fields| == 1 {
      TakeUntilAbsent(fields[0], sep);
    } else {
      var tail := JoinWith(fields[1..], sep);
      SplitCons(fields[0], tail, sep);
      SplitOfJoin(fields[1..], sep);
      assert fields == [fields[0]] + fields[1..];
    }
  }

  /** A field without separator, a separator and a rest split into that
      field followed by the fields of the rest. */
  lemma SplitCons(head: string, rest: string, sep: char)
    requires sep !in head
    ensures Split(head + [sep] + rest, sep) == [head] + Split(rest, sep)
  {
    var s := head + [sep] + rest;
    assert s == head + ([sep] + rest);
    TakeUntilPrefix(head, [sep] + rest, sep);
    assert s[|head| + 1..] == rest;
  }

  /** The longest prefix without `c` of `a + b`, when `a` holds no `c` and
      `b` starts with `c`, is `a`. */
  lemma {:induction false} TakeUntilPrefix(a: string, b: string, c: char)
    requires c !in a && b != [] && b[0] == c
    ensures TakeUntil(a + b, c) == a
    decreases |a|
  {
    if a != [] {
      assert (a + b)[1..] == a[1..] + b;
      TakeUntilPrefix(a[1..], b, c);
    }
  }

  /** A string has one field more than it has separators. */
  lemma {:induction false} SplitCount(s: string, sep: char)
    ensures |Split(s, sep)| == Count(s, sep) + 1
    decreases |s|
  {
    var head := TakeUntil(s, sep);
    CountAbsent(head, sep);
    if |head| == |s| {
      assert head == s;
    } else {
      var rest := s[|head| + 1..];
      assert s == head + ([sep] + rest);
      CountAppend(head, [sep] + rest, sep);
      assert ([sep] + rest)[1..] == rest;
      SplitCount(rest, sep);
    }
  }

  lemma {:induction false} CountAbsent(s: string, c: char)
    requires c !in s
    ensures Count(s, c) == 0
  {
    if s != [] {
      CountAbsent(s[1..], c);
    }
  }

  lemma {:induction false} CountAppend(a: string, b: string, c: char)
    ensures Count(a + b, c) == Count(a, c) + Count(b, c)
  {
    if a != [] {
      assert (a + b)[1..] == a[1..] + b;
      CountAppend(a[1..], b, c);
    } else {
      assert a + b == b;
    }
  }

  /** The space and code of a sample identifier: the second and third
      fields of `identifier.split("/")`; `None` stands for the IndexError
      of an identifier with fewer than three fields. */
  function SpaceAndCode(identifier: string): Option<(string, string)> {
    var fields := Split(identifier, '/');
    if |fields| < 3 then None else Some((fields[1], fields[2]))
  }

  /** Joined fields that hold no slash give back their second and third
      fields as space and code, whatever follows the code. */
  lemma SpaceAndCodeOfFields(fields: seq<string>)
    requires |fields| >= 3
    requires forall i :: 0 <= i < |fields| ==> '/' !in fields[i]
    ensures SpaceAndCode(JoinWith(fields, '/')) == Some((fields[1], fields[2]))
  {
    SplitOfJoin(fields, '/');
  }

  /** "/SPACE/CODE" gives ("SPACE", "CODE"). */
  lemma SpaceAndCodeOfPath(space: string, code: string)
    requires '/' !in space && '/' !in code
    ensures SpaceAndCode("/" + space + "/" + code) == Some((space, code))
  {
    var fields := ["", space, code];
    assert JoinWith(fields, '/') == "/" + space + "/" + code by {
      assert JoinWith(fields[2..], '/') == code;
      assert JoinWith(fields[1..], '/') == space + "/" + code;
    }
    SpaceAndCodeOfFields(fields);
  }

  /** The identifier is refused exactly when it holds fewer than two slashes. */
  lemma SpaceAndCodeFailsIff(identifier: string)
    ensures SpaceAndCode(identifier) == None <==> Count(identifier, '/') < 2
  {
    SplitCount(identifier, '/');
  }

  // ---- the search helpers ----

  /** `found[0]` when the search found exactly one hit, otherwise `None`. */
  function ExactlyOne<T>(found: seq<T>): (r: Option<T>)
    ensures r != None <==> |found| == 1
    ensures r != None ==> found == [r.value]
  {
    if |found| == 1 then Some(found[0]) else None
  }
}
