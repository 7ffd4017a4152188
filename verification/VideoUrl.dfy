/** Request URLs and the map key that decides which clients share a proxy
    (core/src/common.cpp, core/include/common.h). */
module VideoUrl {

  datatype Option<+T> = None | Some(value: T)

  datatype StreamingMode = TCP | UDP

  datatype VideoRequest = VideoRequest(
    useFile: bool, filename: string, repeatedly: bool,
    useGb: bool, gbid: string, mode: StreamingMode)

  datatype SourceKind = FileSource | GbSource | NoSource

  /** The value `std::map` compares: two requests are one map entry when neither is `Less`. */
  type Key = string

  const FILE_PREFIX := "file/"
  const GB_PREFIX := "gb/"
  const REPEATEDLY_FLAG := "?repeatedly="

  // ---------------------------------------------------------------- searching

  predicate OccursAt(s: string, pat: string, i: int) {
    0 <= i <= i + |pat| <= |s| && s[i..i + |pat|] == pat
  }

  ghost predicate Occurs(s: string, pat: string) {
    exists i :: OccursAt(s, pat, i)
  }

  /** `i` is what `std::string::find` returns. */
  ghost predicate FirstAt(s: string, pat: string, i: int) {
    OccursAt(s, pat, i) && forall j :: j < i ==> !OccursAt(s, pat, j)
  }

  function Find(s: string, pat: string, from: nat := 0): (r: Option<nat>)
    requires from <= |s|
    ensures r.Some? ==> from <= r.value && OccursAt(s, pat, r.value)
    ensures r.Some? ==> forall j :: from <= j < r.value ==> !OccursAt(s, pat, j)
    ensures r.None? ==> forall j :: from <= j ==> !OccursAt(s, pat, j)
    decreases |s| - from
  {
    if OccursAt(s, pat, from) then Some(from)
    else if from == |s| then None
    else Find(s, pat, from + 1)
  }

  lemma FindIsFirst(s: string, pat: string, i: nat)
    requires FirstAt(s, pat, i)
    ensures Find(s, pat) == Some(i)
  {}

  /** No proper prefix of `pat` is also its suffix, so occurrences of `pat` cannot overlap. */
  ghost predicate Unbordered(pat: string) {
    |pat| > 0 && forall n :: 0 < n < |pat| ==> pat[..n] != pat[|pat| - n..]
  }

  lemma PrefixesUnbordered()
    ensures Unbordered(FILE_PREFIX) && Unbordered(GB_PREFIX) && Unbordered(REPEATEDLY_FLAG)
  {
    forall n | 0 < n < |FILE_PREFIX| ensures FILE_PREFIX[..n] != FILE_PREFIX[|FILE_PREFIX| - n..] {
      assert FILE_PREFIX[..n][0] == 'f' && FILE_PREFIX[|FILE_PREFIX| - n..][0] != 'f';
    }
    forall n | 0 < n < |GB_PREFIX| ensures GB_PREFIX[..n] != GB_PREFIX[|GB_PREFIX| - n..] {
      assert GB_PREFIX[..n][0] == 'g' && GB_PREFIX[|GB_PREFIX| - n..][0] != 'g';
    }
    forall n | 0 < n < |REPEATEDLY_FLAG|
      ensures REPEATEDLY_FLAG[..n] != REPEATEDLY_FLAG[|REPEATEDLY_FLAG| - n..]
    {
      assert REPEATEDLY_FLAG[..n][0] == '?' && REPEATEDLY_FLAG[|REPEATEDLY_FLAG| - n..][0] != '?';
    }
  }

  /** An occurrence that starts in `a` and ends inside the `pat` after it makes `pat` overlap itself. */
  lemma StraddleIsBorder(a: string, pat: string, b: string, j: int)
    ensures 0 <= j < |a| < j + |pat| && OccursAt(a + pat + b, pat, j)
        ==> exists n :: 0 < n < |pat| && pat[..n] == pat[|pat| - n..]
  {
    var s := a + pat + b;
    if 0 <= j < |a| < j + |pat| && OccursAt(s, pat, j) {
      var n := j + |pat| - |a|;
      assert pat[..n] == s[|a|..|a| + n];
      assert pat[|pat| - n..] == s[j..j + |pat|][|pat| - n..] == s[|a|..|a| + n];
    }
  }

  /** In `a + pat + b` the search stops exactly after `a` when `pat` does not occur in `a`. */
  lemma FirstAfterClearPrefix(a: string, pat: string, b: string)
    requires Unbordered(pat) && !Occurs(a, pat)
    ensures FirstAt(a + pat + b, pat, |a|)
  {
    var s := a + pat + b;
    assert s[|a|..|a| + |pat|] == pat;
    forall j | j < |a| ensures !OccursAt(s, pat, j) {
      StraddleIsBorder(a, pat, b, j);
      assert !OccursAt(a, pat, j);
      assert 0 <= j && j + |pat| <= |a| ==> a[j..j + |pat|] == s[j..j + |pat|];
    }
  }

  // ---------------------------------------------------------------- parsing

  const EMPTY_REQUEST := VideoRequest(false, "", false, false, "", UDP)

  function Parse(url: string): (r: VideoRequest)
    ensures r.useFile <==> Occurs(url, FILE_PREFIX)
    ensures r.useGb <==> !Occurs(url, FILE_PREFIX) && Occurs(url, GB_PREFIX)
    ensures !r.useFile ==> r.filename == "" && !r.repeatedly
    ensures !r.useGb ==> r.gbid == ""
  {
    var f := Find(url, FILE_PREFIX);
    if f.Some? then
      var rest := url[f.value + |FILE_PREFIX|..];
      var q := Find(rest, REPEATEDLY_FLAG);
      if q.Some? then
        EMPTY_REQUEST.(useFile := true, filename := rest[..q.value],
                       repeatedly := rest[q.value + |REPEATEDLY_FLAG|..] == "true")
      else
        EMPTY_REQUEST.(useFile := true, filename := rest)
    else
      var g := Find(url, GB_PREFIX);
      if g.Some? then EMPTY_REQUEST.(useGb := true, gbid := url[g.value + |GB_PREFIX|..])
      else EMPTY_REQUEST
  }

  /** `VideoRequest::parseUrl`: the record is filled by successive assignments. */
  method ParseUrl(url: string) returns (params: VideoRequest)
    ensures params == Parse(url)
  {
    params := EMPTY_REQUEST;
    var found := Find(url, FILE_PREFIX);
    if found.Some? {
      params := params.(useFile := true, repeatedly := false);
      var filename := url[found.value + |FILE_PREFIX|..];
      found := Find(filename, REPEATEDLY_FLAG);
      if found.Some? {
        var repeatedly := filename[found.value + |REPEATEDLY_FLAG|..];
        if repeatedly == "true" {
          params := params.(repeatedly := true);
        }
        filename := filename[..found.value];
      }
      params := params.(filename := filename);
    } else {
      found := Find(url, GB_PREFIX);
      if found.Some? {
        params := params.(useGb := true);
        var gbid := url[found.value + |GB_PREFIX|..];
        params := params.(gbid := gbid);
      }
    }
  }

  /** A file URL gives back its name and its flag. */
  lemma FileUrlRoundTrip(prefix: string, name: string, flag: string)
    requires !Occurs(prefix, FILE_PREFIX) && !Occurs(name, REPEATEDLY_FLAG)
    ensures Parse(prefix + "file/" + name + "?repeatedly=" + flag)
         == VideoRequest(true, name, flag == "true", false, "", UDP)
    ensures Parse(prefix + "file/" + name) == VideoRequest(true, name, false, false, "", UDP)
  {
    PrefixesUnbordered();
    var rest := name + REPEATEDLY_FLAG + flag;
    var url := prefix + FILE_PREFIX + name + REPEATEDLY_FLAG + flag;
    assert url == prefix + FILE_PREFIX + rest;
    FirstAfterClearPrefix(prefix, FILE_PREFIX, rest);
    FindIsFirst(url, FILE_PREFIX, |prefix|);
    assert url[|prefix| + |FILE_PREFIX|..] == rest;
    FirstAfterClearPrefix(name, REPEATEDLY_FLAG, flag);
    FindIsFirst(rest, REPEATEDLY_FLAG, |name|);
    assert rest[..|name|] == name && rest[|name| + |REPEATEDLY_FLAG|..] == flag;
    var bare := prefix + FILE_PREFIX + name;
    FirstAfterClearPrefix(prefix, FILE_PREFIX, name);
    FindIsFirst(bare, FILE_PREFIX, |prefix|);
    assert bare[|prefix| + |FILE_PREFIX|..] == name;
    assert Find(name, REPEATEDLY_FLAG).None?;
  }

  /** A device URL gives back its id exactly when the file prefix occurs nowhere in it,
      not even inside the id: the file search runs first, over the whole URL. */
  lemma GbUrlRoundTrip(prefix: string, id: string)
    requires !Occurs(prefix, GB_PREFIX)
    ensures Parse(prefix + "gb/" + id) == VideoRequest(false, "", false, true, id, UDP)
       <==> !Occurs(prefix + "gb/" + id, "file/")
  {
    PrefixesUnbordered();
    var url := prefix + GB_PREFIX + id;
    FirstAfterClearPrefix(prefix, GB_PREFIX, id);
    FindIsFirst(url, GB_PREFIX, |prefix|);
    assert url[|prefix| + |GB_PREFIX|..] == id;
  }

  // ---------------------------------------------------------------- map keys

  function CmpStr(r: VideoRequest): Key {
    if r.useFile then "file://" + r.filename
    else if r.useGb then "gb://" + r.gbid
    else ""
  }

  function KindOf(k: Key): SourceKind {
    if "file://" <= k then FileSource else if "gb://" <= k then GbSource else NoSource
  }

  /** Lexicographic `std::string::operator<`. */
  predicate StrLess(a: string, b: string) {
    b != "" && (a == "" || a[0] < b[0] || (a[0] == b[0] && StrLess(a[1..], b[1..])))
  }

  predicate Less(a: VideoRequest, b: VideoRequest) { StrLess(CmpStr(a), CmpStr(b)) }

  predicate SameKey(a: VideoRequest, b: VideoRequest) { !Less(a, b) && !Less(b, a) }

  lemma {:induction false} StrLessIrreflexive(a: string)
    ensures !StrLess(a, a)
  {
    if a != "" { StrLessIrreflexive(a[1..]); }
  }

  lemma {:induction false} StrLessTransitive(a: string, b: string, c: string)
    requires StrLess(a, b) && StrLess(b, c)
    ensures StrLess(a, c)
  {
    if a != "" && a[0] == b[0] == c[0] { StrLessTransitive(a[1..], b[1..], c[1..]); }
  }

  lemma {:induction false} StrLessTotal(a: string, b: string)
    ensures StrLess(a, b) || a == b || StrLess(b, a)
  {
    if a != "" && b != "" && a[0] == b[0] {
      StrLessTotal(a[1..], b[1..]);
      assert a == [a[0]] + a[1..] && b == [b[0]] + b[1..];
    }
  }

  predicate IsLeast(ks: set<Key>, k: Key) {
    k in ks && forall j :: j in ks ==> j == k || StrLess(k, j)
  }

  /** `std::map` iteration always has a well-defined next entry. */
  lemma {:induction false} LeastExists(ks: set<Key>)
    requires ks != {}
    ensures exists k :: IsLeast(ks, k)
  {
    var k :| k in ks;
    var rest := ks - {k};
    if rest == {} {
      assert ks == {k};
      assert IsLeast(ks, k);
    } else {
      LeastExists(rest);
      var m :| IsLeast(rest, m);
      StrLessTotal(k, m);
      if StrLess(k, m) {
        forall j | j in ks ensures j == k || StrLess(k, j) {
          if j != k && j != m { StrLessTransitive(k, m, j); }
        }
        assert IsLeast(ks, k);
      } else {
        assert IsLeast(ks, m);
      }
    }
  }

  lemma LeastUnique(ks: set<Key>, a: Key, b: Key)
    requires IsLeast(ks, a) && IsLeast(ks, b)
    ensures a == b
  {
    if a != b {
      StrLessTransitive(a, b, a);
      StrLessIrreflexive(a);
    }
  }

  lemma SameKeyIsCmpEquality(a: VideoRequest, b: VideoRequest)
    ensures SameKey(a, b) <==> CmpStr(a) == CmpStr(b)
  {
    StrLessTotal(CmpStr(a), CmpStr(b));
    StrLessIrreflexive(CmpStr(a));
  }

  /** `operator<` is the strict weak order `std::map` needs. */
  lemma KeyOrderIsStrictWeak(a: VideoRequest, b: VideoRequest, c: VideoRequest)
    ensures !Less(a, a)
    ensures Less(a, b) && Less(b, c) ==> Less(a, c)
    ensures SameKey(a, b) && SameKey(b, c) ==> SameKey(a, c)
  {
    StrLessIrreflexive(CmpStr(a));
    if Less(a, b) && Less(b, c) { StrLessTransitive(CmpStr(a), CmpStr(b), CmpStr(c)); }
    SameKeyIsCmpEquality(a, b);
    SameKeyIsCmpEquality(b, c);
    SameKeyIsCmpEquality(a, c);
  }

  /** Two URLs share a proxy exactly when they name the same source; the flag plays no part. */
  lemma UrlsShareKeyIffSameSource(u: string, v: string)
    ensures var a, b := Parse(u), Parse(v);
            SameKey(a, b) <==> a.useFile == b.useFile && a.useGb == b.useGb
                               && a.filename == b.filename && a.gbid == b.gbid
  {
    var a, b := Parse(u), Parse(v);
    SameKeyIsCmpEquality(a, b);
    CmpStrShape(a);
    CmpStrShape(b);
  }

  /** The first `i` characters agree, and then `a` ends or has the smaller character. */
  predicate LessFrom(a: string, b: string, i: nat) {
    && i <= |a| && i < |b| && a[..i] == b[..i]
    && (i == |a| || a[i] < b[i])
  }

  lemma LessFromTail(a: string, b: string, i: nat)
    requires a != "" && b != "" && a[0] == b[0]
    ensures LessFrom(a, b, i + 1) <==> LessFrom(a[1..], b[1..], i)
  {
    if i + 1 <= |a| && i + 1 < |b| {
      var x, y := a[1..][..i], b[1..][..i];
      assert a[..i + 1] == [a[0]] + x && b[..i + 1] == [b[0]] + y;
      assert ([a[0]] + x)[1..] == x && ([b[0]] + y)[1..] == y;
    }
  }

  /** The order of the map: at the first difference the smaller character, or the end of the string, comes first. */
  lemma {:induction false} StrLessIff(a: string, b: string)
    ensures StrLess(a, b) <==> exists i :: LessFrom(a, b, i)
  {
    if b == "" {
    } else if a == "" || a[0] < b[0] {
      assert LessFrom(a, b, 0);
    } else if a[0] == b[0] {
      StrLessIff(a[1..], b[1..]);
      if i: nat :| LessFrom(a[1..], b[1..], i) { LessFromTail(a, b, i); }
      if i: nat :| LessFrom(a, b, i) { LessFromTail(a, b, i - 1); }
    } else {
      forall i: nat ensures !LessFrom(a, b, i) {
        if 0 < i <= |a| && i < |b| { assert a[..i][0] == a[0] && b[..i][0] == b[0]; }
      }
    }
  }

  /** The key alone tells the kind of source. */
  lemma KeyTellsKind(r: VideoRequest)
    ensures KindOf(CmpStr(r)) == if r.useFile then FileSource else if r.useGb then GbSource else NoSource
  {
    CmpStrShape(r);
  }

  lemma CmpStrShape(r: VideoRequest)
    ensures r.useFile ==> CmpStr(r)[0] == 'f' && CmpStr(r)[7..] == r.filename
    ensures !r.useFile && r.useGb ==> CmpStr(r)[0] == 'g' && CmpStr(r)[5..] == r.gbid
  {}

  /** `std::hash<VideoRequest>`: the hash of the string it builds, for any string hash. */
  function HashOf(hash: string -> nat, r: VideoRequest): (h: nat) {
    hash(if r.useFile then "file://" + r.filename else if r.useGb then "gb://" + r.gbid else "")
  }

  function ValueAndParamsEqual(a: VideoRequest, b: VideoRequest): (r: bool)
    ensures r <==> a == b
  {
    a.useFile == b.useFile && a.filename == b.filename && a.repeatedly == b.repeatedly
    && a.useGb == b.useGb && a.gbid == b.gbid && a.mode == b.mode
  }

  lemma SameKeySameHash(hash: string -> nat, a: VideoRequest, b: VideoRequest)
    requires SameKey(a, b)
    ensures HashOf(hash, a) == HashOf(hash, b) == hash(CmpStr(a))
  {
    SameKeyIsCmpEquality(a, b);
  }
}
