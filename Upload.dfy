/** The rules of the image upload middleware: the size limit, the mimetype
    filter and the name under which an accepted file is stored. Path
    handling follows the POSIX flavour of Node's `path` module. */
module Upload {
  import opened JsValues

  /** `limits.fileSize`: 5 MiB. */
  const MaxFileSize: nat := 5 * 1024 * 1024

  /** A file of `n` bytes is within the limit. */
  predicate AcceptsSize(n: nat) {
    n <= MaxFileSize
  }

  const ImagePrefix := "image/"
  const NotImageMessage := "Only image files are allowed"

  /** What `fileFilter` passes to its callback. */
  datatype Verdict = Accepted | Rejected(message: string)

  /** `fileFilter`: only image mimetypes are accepted. */
  function FileFilter(mimetype: string): (v: Verdict)
    ensures v.Accepted? <==> StartsWith(mimetype, ImagePrefix)
    ensures v.Rejected? ==> v.message == NotImageMessage
  {
    if StartsWith(mimetype, ImagePrefix) then Accepted else Rejected(NotImageMessage)
  }

  /** The characters the JavaScript pattern `\s` matches. */
  predicate IsSpace(c: char) {
    var n := c as int;
    (9 <= n <= 13) || n == 0x20 || n == 0xA0 || n == 0x1680 ||
    (0x2000 <= n <= 0x200A) || n == 0x2028 || n == 0x2029 || n == 0x202F ||
    n == 0x205F || n == 0x3000 || n == 0xFEFF
  }

  predicate NoSpace(s: string) {
    forall i :: 0 <= i < |s| ==> !IsSpace(s[i])
  }

  /** `s` without its leading run of whitespace. */
  function DropSpaces(s: string): (r: string)
    ensures |r| <= |s| && r == s[|s| - |r|..]
    ensures r == [] || !IsSpace(r[0])
    ensures forall i :: 0 <= i < |s| - |r| ==> IsSpace(s[i])
  {
    if s != [] && IsSpace(s[0]) then DropSpaces(s[1..]) else s
  }

  /** `s.replace(/\s+/g, '-')`: every maximal run of whitespace becomes one
      dash. */
  function DashRuns(s: string): (r: string)
    ensures NoSpace(r)
    ensures |r| <= |s|
    decreases |s|
  {
    if s == [] then []
    else if IsSpace(s[0]) then "-" + DashRuns(DropSpaces(s))
    else [s[0]] + DashRuns(s[1..])
  }

  /** `s` with its trailing slashes removed. */
  function TrimSlashes(s: string): (r: string)
    ensures |r| <= |s| && r == s[..|r|]
    ensures r == [] || r[|r| - 1] != '/'
    ensures forall i :: |r| <= i < |s| ==> s[i] == '/'
  {
    if s != [] && s[|s| - 1] == '/' then TrimSlashes(s[..|s| - 1]) else s
  }

  /** What follows the last slash of `s`. */
  function AfterLastSlash(s: string): (r: string)
    ensures EndsWith(s, r)
    ensures forall i :: 0 <= i < |r| ==> r[i] != '/'
    ensures |r| < |s| ==> s[|s| - |r| - 1] == '/'
  {
    if s == [] || s[|s| - 1] == '/' then []
    else AfterLastSlash(s[..|s| - 1]) + [s[|s| - 1]]
  }

  /** The last path component of `p`, as `path.basename(p)` gives it. */
  function Component(p: string): (c: string)
    ensures forall i :: 0 <= i < |c| ==> c[i] != '/'
  {
    AfterLastSlash(TrimSlashes(p))
  }

  /** The component is the tail of `p` without its trailing slashes, cut
      just after a slash unless it is all of it. */
  lemma ComponentIsLastSegment(p: string)
    ensures var t := TrimSlashes(p); var c := Component(p);
      EndsWith(t, c) && (|c| < |t| ==> t[|t| - |c| - 1] == '/')
  {
  }

  /** The index of the last dot of `c`, if any. */
  function LastDot(c: string): (r: Option<nat>)
    ensures r.Some? ==> r.value < |c| && c[r.value] == '.'
    ensures r.Some? ==> forall i :: r.value < i < |c| ==> c[i] != '.'
    ensures r.None? ==> forall i :: 0 <= i < |c| ==> c[i] != '.'
  {
    if c == [] then None
    else if c[|c| - 1] == '.' then Some(|c| - 1)
    else LastDot(c[..|c| - 1])
  }

  /** The extension of a path component: from its last dot to its end;
      empty when there is no dot, when the dot is the component's first
      character, and for the component `..`. */
  function Extension(c: string): (e: string)
    ensures |e| < |c| || e == []
    ensures e == c[|c| - |e|..]
    ensures e != [] ==> e[0] == '.'
    ensures forall i :: 0 < i < |e| ==> e[i] != '.'
    ensures e == [] <==> LastDot(c).None? || LastDot(c).value == 0 || c == ".."
  {
    var d := LastDot(c);
    if d.None? || d.value == 0 || c == ".." then [] else c[d.value..]
  }

  /** `path.extname(p)` */
  function ExtName(p: string): (e: string)
    ensures EndsWith(Component(p), e)
    ensures e != [] ==> e[0] == '.' && |e| < |Component(p)|
  {
    Extension(Component(p))
  }

  /** `path.basename(p, path.extname(p))`: the last component without its
      extension. */
  function Stem(p: string): (b: string)
    ensures b + ExtName(p) == Component(p)
  {
    var c := Component(p);
    var e := ExtName(p);
    SplitBeforeSuffix(c, e);
    c[..|c| - |e|]
  }

  lemma SplitBeforeSuffix(c: string, e: string)
    requires EndsWith(c, e)
    ensures c[..|c| - |e|] + e == c
  {
    assert c[..|c| - |e|] + c[|c| - |e|..] == c;
  }

  /** The decimal digit for `d`. */
  function Digit(d: nat): (c: char)
    requires d < 10
    ensures '0' <= c <= '9'
  {
    (('0' as int) + d) as char
  }

  /** `String(n)` for a whole number that is not negative. */
  function Decimal(n: nat): (s: string)
    ensures s != []
    ensures forall i :: 0 <= i < |s| ==> '0' <= s[i] <= '9'
    ensures |s| > 1 ==> s[0] != '0'
  {
    if n < 10 then [Digit(n)] else Decimal(n / 10) + [Digit(n % 10)]
  }

  /** The number a string of decimal digits denotes. */
  function DigitsValue(s: string): nat
    requires forall i :: 0 <= i < |s| ==> '0' <= s[i] <= '9'
  {
    if s == [] then 0 else DigitsValue(s[..|s| - 1]) * 10 + ((s[|s| - 1] as int) - ('0' as int))
  }

  /** The `filename` callback: the stem with its whitespace runs dashed, a
      dash, the upload time in milliseconds, and the original extension. */
  function StoredName(originalName: string, now: nat): (r: string)
    ensures EndsWith(r, ExtName(originalName))
    ensures StartsWith(r, DashRuns(Stem(originalName)) + "-")
    ensures var k := |DashRuns(Stem(originalName))|; k < |r| && NoSpace(r[..k]) && r[k] == '-'
  {
    var base, digits, ext := DashRuns(Stem(originalName)), Decimal(now), ExtName(originalName);
    NameParts(base, digits, ext);
    base + "-" + digits + ext
  }

  /** Where the parts of `base-digits.ext` sit. */
  lemma NameParts(base: string, digits: string, ext: string)
    ensures var r := base + "-" + digits + ext;
      StartsWith(r, base + "-") && EndsWith(r, ext) && |base| < |r| &&
      r[..|base|] == base && r[|base|] == '-' && r[|base| + 1..|r| - |ext|] == digits
  {
    var r := base + "-" + digits + ext;
    assert r[..|base| + 1] == base + "-";
    assert r[..|base|] == base;
    assert r[|r| - |ext|..] == ext;
    assert r[|base| + 1..|r| - |ext|] == digits;
  }

  /* ---------- whitespace runs ---------- */

  /** A text without whitespace is left as it is. */
  lemma {:induction false} DashRunsKeepsPlainText(s: string)
    requires NoSpace(s)
    ensures DashRuns(s) == s
    decreases |s|
  {
    if s != [] {
      assert !IsSpace(s[0]);
      DashRunsKeepsPlainText(s[1..]);
    }
  }

  /** Replacing the runs a second time changes nothing. */
  lemma DashRunsIdempotent(s: string)
    ensures DashRuns(DashRuns(s)) == DashRuns(s)
  {
    DashRunsKeepsPlainText(DashRuns(s));
  }

  /** A leading run of whitespace before text becomes a single dash. */
  lemma DashRunsOfLeadingRun(w: string, b: string)
    requires w != [] && forall i :: 0 <= i < |w| ==> IsSpace(w[i])
    requires b == [] || !IsSpace(b[0])
    ensures DashRuns(w + b) == "-" + DashRuns(b)
  {
    assert (w + b)[0] == w[0];
    DropSpacesOfRun(w, b);
  }

  /** Dropping the leading run of `w + b` leaves `b` when `w` is all
      whitespace and `b` does not start with any. */
  lemma {:induction false} DropSpacesOfRun(w: string, b: string)
    requires forall i :: 0 <= i < |w| ==> IsSpace(w[i])
    requires b == [] || !IsSpace(b[0])
    ensures DropSpaces(w + b) == b
    decreases |w|
  {
    if w == [] {
      assert w + b == b;
    } else {
      assert (w + b)[0] == w[0];
      assert (w + b)[1..] == w[1..] + b;
      DropSpacesOfRun(w[1..], b);
    }
  }

  /** A non-empty run of whitespace alone becomes a single dash. */
  lemma {:induction false} DashRunsOfRun(w: string)
    requires w != [] && forall i :: 0 <= i < |w| ==> IsSpace(w[i])
    ensures DashRuns(w) == "-"
  {
  }

  /** Dropping the leading run of `a + b` stays inside `a` when `a` ends with
      a character that is not whitespace. */
  lemma {:induction false} DropSpacesConcat(a: string, b: string)
    requires a != [] && !IsSpace(a[|a| - 1])
    ensures DropSpaces(a + b) == DropSpaces(a) + b
    decreases |a|
  {
    if IsSpace(a[0]) {
      assert (a + b)[1..] == a[1..] + b;
      DropSpacesConcat(a[1..], b);
    }
  }

  /** The runs of `a + b` are those of `a` followed by those of `b`, as long
      as no run straddles the join. */
  lemma {:induction false} DashRunsConcat(a: string, b: string)
    requires a == [] || !IsSpace(a[|a| - 1])
    ensures DashRuns(a + b) == DashRuns(a) + DashRuns(b)
    decreases |a|
  {
    if a == [] {
      assert a + b == b;
    } else if IsSpace(a[0]) {
      DropSpacesConcat(a, b);
      LastKeptAfterDrop(a);
      DashRunsConcat(DropSpaces(a), b);
      DashRunsAtSpace(a, b);
      Regroup(DashRuns(a + b), DashRuns(a), "-", DashRuns(DropSpaces(a)), DashRuns(b));
    } else {
      var rest := a[1..];
      assert rest == [] || rest[|rest| - 1] == a[|a| - 1];
      DashRunsConcat(rest, b);
      DashRunsAtPlain(a, b);
      Regroup(DashRuns(a + b), DashRuns(a), [a[0]], DashRuns(rest), DashRuns(b));
    }
  }

  /** Dropping the leading run of a text that ends in a non-space leaves
      that last character. */
  lemma LastKeptAfterDrop(a: string)
    requires a != [] && !IsSpace(a[|a| - 1])
    ensures DropSpaces(a) != [] && DropSpaces(a)[|DropSpaces(a)| - 1] == a[|a| - 1]
  {
  }

  /** One unfolding of the runs of `a + b` when `a` starts with a character
      that is not whitespace. */
  lemma DashRunsAtPlain(a: string, b: string)
    requires a != [] && !IsSpace(a[0])
    ensures DashRuns(a + b) == [a[0]] + DashRuns(a[1..] + b)
    ensures DashRuns(a) == [a[0]] + DashRuns(a[1..])
  {
    assert (a + b)[0] == a[0];
    assert (a + b)[1..] == a[1..] + b;
  }

  /** One unfolding of the runs of `a + b` when `a` starts with whitespace. */
  lemma DashRunsAtSpace(a: string, b: string)
    requires a != [] && IsSpace(a[0])
    ensures DashRuns(a + b) == "-" + DashRuns(DropSpaces(a + b))
    ensures DashRuns(a) == "-" + DashRuns(DropSpaces(a))
  {
    assert (a + b)[0] == a[0];
  }

  /** Putting a common head back in front of both sides of a split. */
  lemma Regroup(whole: string, part: string, head: string, x: string, y: string)
    requires whole == head + (x + y) && part == head + x
    ensures whole == part + y
  {
  }

  /* ---------- decimal timestamps ---------- */

  /** The decimal text of `n` denotes `n`. */
  lemma {:induction false} DecimalRoundTrip(n: nat)
    ensures DigitsValue(Decimal(n)) == n
    decreases n
  {
    if n >= 10 {
      var s := Decimal(n);
      assert s[..|s| - 1] == Decimal(n / 10);
      DecimalRoundTrip(n / 10);
    }
  }

  /** Different times give different decimal texts. */
  lemma DecimalInjective(m: nat, n: nat)
    requires Decimal(m) == Decimal(n)
    ensures m == n
  {
    DecimalRoundTrip(m);
    DecimalRoundTrip(n);
  }

  /* ---------- stored names ---------- */

  /** The same file uploaded at two different times gets two different
      names. */
  lemma {:induction false} StoredNameInjectiveInTime(originalName: string, t1: nat, t2: nat)
    requires StoredName(originalName, t1) == StoredName(originalName, t2)
    ensures t1 == t2
  {
    var base := DashRuns(Stem(originalName));
    var ext := ExtName(originalName);
    assert StoredName(originalName, t1) == base + "-" + Decimal(t1) + ext;
    assert StoredName(originalName, t2) == base + "-" + Decimal(t2) + ext;
    JoinInjective(base, Decimal(t1), Decimal(t2), ext);
    DecimalInjective(t1, t2);
  }

  /** Between a fixed base and extension, the middle of `base-digits.ext` is
      determined by the whole. */
  lemma JoinInjective(base: string, d1: string, d2: string, ext: string)
    requires base + "-" + d1 + ext == base + "-" + d2 + ext
    ensures d1 == d2
  {
    NameParts(base, d1, ext);
    NameParts(base, d2, ext);
  }

  /** The filter and the size limit on sample files. */
  lemma FilterExamples()
    ensures FileFilter("image/png").Accepted? && FileFilter("text/plain").Rejected?
    ensures AcceptsSize(5242880) && !AcceptsSize(5242881)
  {
    assert "text/plain"[..6][0] == 't';
  }

  /** A name without slashes is its own last component. */
  lemma {:induction false} ComponentOfPlainName(p: string)
    requires forall i :: 0 <= i < |p| ==> p[i] != '/'
    ensures Component(p) == p
  {
    assert TrimSlashes(p) == p;
    AfterLastSlashOfPlainName(p);
  }

  lemma {:induction false} AfterLastSlashOfPlainName(p: string)
    requires forall i :: 0 <= i < |p| ==> p[i] != '/'
    ensures AfterLastSlash(p) == p
    decreases |p|
  {
    if p != [] {
      AfterLastSlashOfPlainName(p[..|p| - 1]);
    }
  }

  /** The last dot of `a b.jpg` is at index 3. */
  lemma LastDotExample()
    ensures LastDot("a b.jpg") == Some(3)
  {
    var name := "a b.jpg";
    var c4, c5, c6 := name[..4], name[..5], name[..6];
    assert c4 == "a b." && c5 == "a b.j" && c6 == "a b.jp";
    assert c5[..4] == c4 && c6[..5] == c5;
    assert LastDot(c4) == Some(3);
    assert LastDot(c5) == Some(3);
    assert LastDot(c6) == Some(3);
  }

  /** `path.extname("a b.jpg")` is `.jpg`, and the stem is `a b`. */
  lemma ExtNameExample()
    ensures ExtName("a b.jpg") == ".jpg" && Stem("a b.jpg") == "a b"
  {
    var name := "a b.jpg";
    ComponentOfPlainName(name);
    ExtensionExample();
    assert name[..3] == "a b";
  }

  /** The extension of the component `a b.jpg` is `.jpg`. */
  lemma ExtensionExample()
    ensures Extension("a b.jpg") == ".jpg"
  {
    var name := "a b.jpg";
    LastDotExample();
    assert name != ".." && name[3..] == ".jpg";
  }

  /** Replacing the runs of ` b` gives `-b`. */
  lemma DashRunsOfSpaceB()
    ensures DashRuns(" b") == "-b"
  {
    DropSpacesOfSpaceB();
    DashRunsOfB();
    assert IsSpace(" b"[0]);
  }

  lemma DropSpacesOfSpaceB()
    ensures DropSpaces(" b") == "b"
  {
    assert IsSpace(' ') && !IsSpace('b');
    assert " b"[1..] == "b";
  }

  lemma DashRunsOfB()
    ensures DashRuns("b") == "b"
  {
    assert !IsSpace('b');
    assert "b"[1..] == [];
  }

  /** Replacing the runs of `a b` gives `a-b`. */
  lemma DashRunsExample()
    ensures DashRuns("a b") == "a-b"
  {
    assert !IsSpace('a');
    assert "a b" == ['a'] + " b";
    DashRunsCons('a', " b");
    DashRunsOfSpaceB();
  }

  /** A leading character that is not whitespace is kept. */
  lemma DashRunsCons(c: char, s: string)
    requires !IsSpace(c)
    ensures DashRuns([c] + s) == [c] + DashRuns(s)
  {
    assert ([c] + s)[1..] == s;
  }

  /** A file named `a b.jpg` uploaded at time 42 is stored as `a-b-42.jpg`. */
  lemma StoredNameExample()
    ensures StoredName("a b.jpg", 42) == "a-b-42.jpg"
  {
    ExtNameExample();
    DashRunsExample();
    DecimalExample();
    StoredNameFromParts("a b.jpg", 42, "a-b", "42", ".jpg");
    JoinedExample();
  }

  lemma StoredNameFromParts(originalName: string, now: nat, base: string, digits: string, ext: string)
    requires DashRuns(Stem(originalName)) == base && Decimal(now) == digits && ExtName(originalName) == ext
    ensures StoredName(originalName, now) == base + "-" + digits + ext
  {
  }

  lemma DecimalExample()
    ensures Decimal(42) == "42"
  {
  }

  lemma JoinedExample()
    ensures "a-b" + "-" + "42" + ".jpg" == "a-b-42.jpg"
  {
  }
}
