/** db/file/model.go: the keys of the two tables that share one key space. */
module FileKeys {
  import opened Decimal
  import opened Labels

  function FileKey(etag: string, size: uint64): string {
    "file/" + etag + "/" + Dec(size)
  }

  function UserFileKey(path: string): string {
    "file/user/" + path
  }

  function AfterLastSlash(s: string): string {
    if s == [] || s[|s| - 1] == '/' then [] else AfterLastSlash(s[..|s| - 1]) + [s[|s| - 1]]
  }

  lemma {:induction false} AfterSlash(a: string, c: string)
    requires '/' !in c
    ensures AfterLastSlash(a + "/" + c) == c
  {
    var s := a + "/" + c;
    if c != [] {
      AfterSlash(a, c[..|c| - 1]);
      assert s[..|s| - 1] == a + "/" + c[..|c| - 1];
    }
  }

  /** The last slash of a string separates what stands before it from the rest. */
  lemma LastSlash(a: string, b: string, c: string, d: string)
    requires a + "/" + c == b + "/" + d && '/' !in c && '/' !in d
    ensures a == b && c == d
  {
    AfterSlash(a, c);
    AfterSlash(b, d);
    assert a == (a + "/" + c)[..|a|] && b == (b + "/" + d)[..|b|];
  }

  /** File keys are injective in (etag, size), whatever the etag contains. */
  lemma FileKeyInjective(etag: string, size: uint64, etag': string, size': uint64)
    requires FileKey(etag, size) == FileKey(etag', size')
    ensures etag == etag' && size == size'
  {
    DecIsCanonical(size);
    DecIsCanonical(size');
    LastSlash("file/" + etag, "file/" + etag', Dec(size), Dec(size'));
    assert etag == ("file/" + etag)[5..] && etag' == ("file/" + etag')[5..];
    DecInjective(size, size');
  }

  /** Both tables live under "file/", the users' one under "file/user/". */
  lemma KeysArePrefixed(etag: string, size: uint64, path: string)
    ensures FileKey(etag, size)[..5] == "file/" && FileKey(etag, size)[5..] == etag + "/" + Dec(size)
    ensures |UserFileKey(path)| >= 10 && UserFileKey(path)[..10] == "file/user/" && UserFileKey(path)[10..] == path
  {
    assert FileKey(etag, size) == "file/" + (etag + "/" + Dec(size));
  }

  lemma UserFileKeyInjective(path: string, path': string)
    requires UserFileKey(path) == UserFileKey(path')
    ensures path == path'
  {
    assert path == UserFileKey(path)[10..] && path' == UserFileKey(path')[10..];
  }

  /** When the two tables meet: the etag starts a user path, and the path is what is left of the file key. */
  predicate Clash(etag: string, size: uint64, path: string) {
    || (etag == "user" && path == Dec(size))
    || (|etag| >= 5 && etag[..5] == "user/" && path == etag[5..] + "/" + Dec(size))
  }

  lemma KeysMeetExactlyWhen(etag: string, size: uint64, path: string)
    ensures FileKey(etag, size) == UserFileKey(path) <==> Clash(etag, size, path)
  {
    var x, y := etag + "/" + Dec(size), "user/" + path;
    assert FileKey(etag, size) == "file/" + x;
    assert UserFileKey(path) == "file/" + y;
    assert FileKey(etag, size)[5..] == x && UserFileKey(path)[5..] == y;
    if Clash(etag, size, path) {
      if etag != "user" {
        assert etag == "user/" + etag[5..];
      }
      assert x == y;
    }
    if x == y {
      SplitAtUser(etag, Dec(size), path);
    }
  }

  lemma SplitAtUser(etag: string, d: string, path: string)
    requires etag + "/" + d == "user/" + path
    ensures (etag == "user" && path == d) || (|etag| >= 5 && etag[..5] == "user/" && path == etag[5..] + "/" + d)
  {
    var x, y := etag + "/" + d, "user/" + path;
    assert x[|etag|] == '/' && |x| == |y|;
    assert y[..4] == "user" && y[..5] == "user/" && y[5..] == path;
    if |etag| >= 5 {
      assert x[..5] == etag[..5] && x[5..] == etag[5..] + "/" + d;
    } else if |etag| == 4 {
      assert x[..4] == etag && x[5..] == d;
    }
  }

  predicate Hex(s: string) {
    forall i :: 0 <= i < |s| ==> IsDigit(s[i]) || 'a' <= s[i] <= 'f' || 'A' <= s[i] <= 'F'
  }

  /** For hexadecimal etags the tables never interfere. */
  lemma HexEtagsAreSeparate(etag: string, size: uint64, path: string)
    requires Hex(etag)
    ensures FileKey(etag, size) != UserFileKey(path)
  {
    KeysMeetExactlyWhen(etag, size, path);
    assert !Clash(etag, size, path) by {
      if |etag| >= 5 {
        assert etag[..5][0] == etag[0];
      }
      assert etag != [] ==> etag[0] != 'u';
    }
  }
}
