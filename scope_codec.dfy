/**
 * How the provider stores a list of OAuth scopes in one TEXT column: joined with ","
 * on the way in, split on "," on the way out, with the empty column read as no scopes.
 * The same join, with " ", builds the space-separated `scope` field of a token response.
 */
module ScopeCodec {

  /** Python's `sep.join(xs)`. */
  function Join(xs: seq<string>, sep: char): string
  {
    if |xs| == 0 then "" else if |xs| == 1 then xs[0] else xs[0] + [sep] + Join(xs[1..], sep)
  }

  /** Python's `s.split(sep)`: the pieces between separators; always at least one piece. */
  function Split(s: string, sep: char): (r: seq<string>)
    ensures |r| >= 1
    ensures forall i :: 0 <= i < |r| ==> sep !in r[i]
    ensures sep !in s ==> r == [s]
  {
    if |s| == 0 then [""]
    else
      var rest := Split(s[1..], sep);
      assert s == [s[0]] + s[1..];
      if s[0] == sep then [""] + rest
      else [[s[0]] + rest[0]] + rest[1..]
  }

  /** A scope the stored encoding can carry: non-empty and free of the separator. */
  predicate PlainScope(x: string)
  {
    x != "" && ',' !in x
  }

  predicate PlainScopes(xs: seq<string>)
  {
    forall i :: 0 <= i < |xs| ==> PlainScope(xs[i])
  }

  /** `",".join(scopes)`, as written to the `scopes` column. */
  function EncodeScopes(xs: seq<string>): (r: string)
    ensures r == "" <==> xs == [] || xs == [""]
  {
    Join(xs, ',')
  }

  /** `row["scopes"].split(",") if row["scopes"] else []`, as read back from the column. */
  function DecodeScopes(s: string): (r: seq<string>)
    ensures r == [] <==> s == ""
    ensures forall i :: 0 <= i < |r| ==> ',' !in r[i]
  {
    if s == "" then [] else Split(s, ',')
  }

  /** Splitting a string that starts with a separator-free piece `a` glues `a` onto the first piece. */
  lemma {:induction false} SplitPrefix(a: string, t: string, sep: char)
    requires sep !in a
    ensures Split(a + t, sep) == [a + Split(t, sep)[0]] + Split(t, sep)[1..]
    decreases |a|
  {
    if a != [] {
      assert (a + t)[0] == a[0];
      assert (a + t)[1..] == a[1..] + t;
      SplitPrefix(a[1..], t, sep);
      assert [a[0]] + (a[1..] + Split(t, sep)[0]) == a + Split(t, sep)[0];
    } else {
      assert a + t == t;
      assert a + Split(t, sep)[0] == Split(t, sep)[0];
    }
  }

  /** Split undoes Join on separator-free pieces, as long as there is at least one piece. */
  lemma {:induction false} SplitJoin(xs: seq<string>, sep: char)
    requires |xs| >= 1
    requires forall i :: 0 <= i < |xs| ==> sep !in xs[i]
    ensures Split(Join(xs, sep), sep) == xs
    decreases |xs|
  {
    if |xs| > 1 {
      var t := Join(xs[1..], sep);
      SplitJoin(xs[1..], sep);
      assert xs[0] + [sep] + t == xs[0] + ([sep] + t);
      SplitPrefix(xs[0], [sep] + t, sep);
      assert ([sep] + t)[1..] == t;
      assert Split([sep] + t, sep) == [""] + xs[1..];
      assert xs[0] + "" == xs[0];
    }
  }

  /** Join undoes Split on every string. */
  lemma {:induction false} JoinSplit(s: string, sep: char)
    ensures Join(Split(s, sep), sep) == s
    decreases |s|
  {
    if |s| > 0 {
      var rest := Split(s[1..], sep);
      JoinSplit(s[1..], sep);
      if s[0] == sep {
        assert Join([""] + rest, sep) == "" + [sep] + Join(rest, sep);
        assert s == [s[0]] + s[1..];
      } else {
        var ys := [[s[0]] + rest[0]] + rest[1..];
        if |rest| == 1 {
          assert Join(ys, sep) == [s[0]] + rest[0];
          assert Join(rest, sep) == rest[0];
        } else {
          assert ys[1..] == rest[1..];
          assert Join(ys, sep) == ([s[0]] + rest[0]) + [sep] + Join(rest[1..], sep);
          assert Join(rest, sep) == rest[0] + [sep] + Join(rest[1..], sep);
        }
        assert s == [s[0]] + s[1..];
      }
    }
  }

  /** A non-empty list of plain scopes never encodes to the empty column. */
  lemma {:induction false} EncodeNonEmpty(xs: seq<string>)
    requires |xs| >= 1 && xs[0] != ""
    ensures EncodeScopes(xs) != ""
  {
    if |xs| > 1 {
      assert |EncodeScopes(xs)| >= |xs[0]|;
    }
  }

  /** Stored scopes read back as written whenever every scope is plain; `[]` reads back as `[]`. */
  lemma ScopesRoundTrip(xs: seq<string>)
    requires PlainScopes(xs)
    ensures DecodeScopes(EncodeScopes(xs)) == xs
  {
    if |xs| >= 1 {
      EncodeNonEmpty(xs);
      SplitJoin(xs, ',');
    }
  }

  /**
   * For comma-free scopes the round trip fails in exactly one case: the single empty
   * scope, which is stored as the empty column and read back as no scopes at all.
   */
  lemma ScopesRoundTripExactly(xs: seq<string>)
    requires forall i :: 0 <= i < |xs| ==> ',' !in xs[i]
    ensures DecodeScopes(EncodeScopes(xs)) == xs <==> xs != [""]
  {
    if |xs| == 1 && xs[0] == "" {
      assert EncodeScopes(xs) == "";
    } else if |xs| >= 1 {
      SplitJoin(xs, ',');
    }
  }

  /** Every stored column reads back to a list that re-encodes to the same column. */
  lemma EncodeDecode(s: string)
    ensures EncodeScopes(DecodeScopes(s)) == s
  {
    if s != "" {
      JoinSplit(s, ',');
    }
  }

  /** A scope containing the separator comes back as two scopes. */
  lemma CommaScopeSplits()
    ensures DecodeScopes(EncodeScopes(["a,b"])) == ["a", "b"]
  {
    assert EncodeScopes(["a,b"]) == "a,b";
    assert "b"[1..] == "";
    assert Split("b", ',') == ["b"];
    assert ",b"[0] == ',' && ",b"[1..] == "b";
    assert Split(",b", ',') == ["", "b"];
    assert "a,b" == "a" + ",b";
    SplitPrefix("a", ",b", ',');
    assert "a" + "" == "a";
  }
}
