/**
  The abstract filesystem the session handlers consult, the two `os.path`
  functions whose behaviour matters (`join`, `basename`), and the fixed-column
  line LIST writes per directory entry.
 */
module FileSystem {
  import opened Base
  import opened Text

  newtype byte = x: int | 0 <= x < 256

  type Path = string

  /** The `os.stat` fields a listing line prints; the time is already formatted (opaque). */
  datatype Stat = Stat(nlink: nat, uid: nat, gid: nat, size: nat, mtime: string)

  /**
    A read-only filesystem. Paths are the strings the handlers hand to `os`,
    so resolution against the process directory is folded into the sets.
    `files` holds each regular file's bytes and `texts` what reading it in
    text mode yields (decoded, newlines translated); a file with no `texts`
    entry does not decode, so a text-mode read of it raises.
    `entries` is what `os.listdir` returns for a directory (in OS order),
    `meta` is what `os.stat` returns, and `abspath` is `os.path.abspath`.
   */
  datatype Fs = Fs(
    dirs: set<Path>,
    files: map<Path, seq<byte>>,
    texts: map<Path, string>,
    unreadable: set<Path>,
    entries: map<Path, seq<string>>,
    meta: map<Path, Stat>,
    abspath: Path -> Path)

  /** `os.path.exists` */
  predicate Exists(fs: Fs, p: Path) {
    p in fs.dirs || p in fs.files
  }

  /** `os.path.isdir` */
  predicate IsDir(fs: Fs, p: Path) {
    p in fs.dirs
  }

  /** `open(p)` succeeds: a regular file the server may read. */
  predicate CanOpen(fs: Fs, p: Path) {
    p in fs.files && p !in fs.dirs && p !in fs.unreadable
  }

  /** `os.path.join(a, b)` on POSIX: an absolute `b` replaces `a`. */
  function PathJoin(a: Path, b: Path): (r: Path)
    ensures |b| > 0 && b[0] == '/' ==> r == b
    ensures !(|b| > 0 && b[0] == '/') ==> |r| >= |b| && r[|r| - |b|..] == b
  {
    if |b| > 0 && b[0] == '/' then b
    else if |a| == 0 || a[|a| - 1] == '/' then a + b
    else a + "/" + b
  }

  /** `os.path.basename(p)`: the longest suffix of `p` without a slash. */
  function Basename(p: Path): (r: Path)
    ensures '/' !in r
    ensures |r| <= |p| && r == p[|p| - |r|..]
    ensures |r| < |p| ==> p[|p| - |r| - 1] == '/'
  {
    if |p| == 0 || p[|p| - 1] == '/' then ""
    else
      var r := Basename(p[..|p| - 1]) + [p[|p| - 1]];
      assert p[..|p| - 1][|p| - |r|..] + [p[|p| - 1]] == p[|p| - |r|..];
      r
  }

  /** The basename of `dir` joined with a slash-free `name` is `name`. */
  lemma BasenameOfJoin(dir: Path, name: Path)
    requires '/' !in name
    ensures Basename(PathJoin(dir, name)) == name
  {
    var p := PathJoin(dir, name);
    var k := |p| - |name|;
    assert p[k..] == name;
    BasenameAfterSlash(p, k);
  }

  /** A slash-free tail that follows a slash (or starts the path) is the basename. */
  lemma {:induction false} BasenameAfterSlash(p: Path, k: nat)
    requires k <= |p| && (k == 0 || p[k - 1] == '/') && '/' !in p[k..]
    ensures Basename(p) == p[k..]
    decreases |p| - k
  {
    if k < |p| {
      var q := p[..|p| - 1];
      assert p[|p| - 1] == p[k..][|p| - 1 - k];
      assert q[k..] == p[k..][..|p| - 1 - k];
      assert k == 0 || q[k - 1] == '/';
      BasenameAfterSlash(q, k);
      assert p[k..] == q[k..] + [p[|p| - 1]];
    }
  }

  /** The permission column: only the directory/file distinction is reported. */
  function Rights(isDir: bool): string {
    if isDir then "drwxrwxrwx" else "-rw-rw-rw-"
  }

  /** One LIST line: `<rights> <nlink> <uid> <gid> <size> <mtime> <name>`. */
  function ListingLine(isDir: bool, st: Stat, name: string): string {
    Rights(isDir) + " " + NatToString(st.nlink) + " " + NatToString(st.uid) + " "
    + NatToString(st.gid) + " " + NatToString(st.size) + " " + st.mtime + " " + name
  }

  /** What a client reads back from a listing line. */
  datatype Entry = Entry(isDir: bool, st: Stat, name: string)

  predicate IsNumeral(s: string) {
    |s| > 0 && AllDigits(s)
  }

  /**
    A client-side reading of a listing line: split at spaces; the first five
    fields are rights and numbers, the last is the name, and everything in
    between is the (space-containing) time stamp.
   */
  function ParseListingLine(line: string): Option<Entry> {
    var f := Split(line, ' ');
    if |f| < 7 || (f[0] != Rights(true) && f[0] != Rights(false)) then None
    else if !(IsNumeral(f[1]) && IsNumeral(f[2]) && IsNumeral(f[3]) && IsNumeral(f[4])) then None
    else
      Some(Entry(f[0] == Rights(true),
                 Stat(DigitsValue(f[1]), DigitsValue(f[2]), DigitsValue(f[3]), DigitsValue(f[4]),
                      Join(f[5..|f| - 1], ' ')),
                 f[|f| - 1]))
  }

  /** The five leading fields of a listing line: rights, link count, owner, group and size. */
  function LeadingFields(isDir: bool, st: Stat): seq<string> {
    [Rights(isDir), NatToString(st.nlink), NatToString(st.uid), NatToString(st.gid), NatToString(st.size)]
  }

  /** The leading fields joined by spaces, as the listing line starts. */
  lemma JoinLeadingFields(isDir: bool, st: Stat)
    ensures Join(LeadingFields(isDir, st), ' ') == Rights(isDir) + " " + NatToString(st.nlink) + " "
      + NatToString(st.uid) + " " + NatToString(st.gid) + " " + NatToString(st.size)
  {
    var head := LeadingFields(isDir, st);
    var n1, n2, n3, n4 := head[1], head[2], head[3], head[4];
    assert Join([n4], ' ') == n4;
    assert Join([n3, n4], ' ') == n3 + " " + n4 by { assert [n3, n4][1..] == [n4]; }
    assert Join([n2, n3, n4], ' ') == n2 + " " + (n3 + " " + n4) by { assert [n2, n3, n4][1..] == [n3, n4]; }
    assert Join([n1, n2, n3, n4], ' ') == n1 + " " + (n2 + " " + (n3 + " " + n4)) by {
      assert [n1, n2, n3, n4][1..] == [n2, n3, n4];
    }
    assert head[1..] == [n1, n2, n3, n4];
    assert Join(head, ' ') == head[0] + " " + (n1 + " " + (n2 + " " + (n3 + " " + n4)));
  }

  /** A listing line is the space-join of its leading fields, the time stamp's words and the name. */
  lemma ListingLineIsJoin(isDir: bool, st: Stat, name: string)
    ensures Join(LeadingFields(isDir, st) + Split(st.mtime, ' ') + [name], ' ') == ListingLine(isDir, st, name)
  {
    var head := LeadingFields(isDir, st);
    var times := Split(st.mtime, ' ');
    JoinAppend(head, times, ' ');
    JoinAppend(head + times, [name], ' ');
    JoinSplit(st.mtime, ' ');
    JoinLeadingFields(isDir, st);
    assert Join([name], ' ') == name;
  }

  /** Splitting a listing line at spaces gives its fields back when the name has no space. */
  lemma ListingLineFields(isDir: bool, st: Stat, name: string)
    requires ' ' !in name
    ensures Split(ListingLine(isDir, st, name), ' ') == LeadingFields(isDir, st) + Split(st.mtime, ' ') + [name]
  {
    var head := LeadingFields(isDir, st);
    var parts := head + Split(st.mtime, ' ') + [name];
    forall i | 0 <= i < |head| ensures ' ' !in head[i] {
      assert AllDigits(head[i]) || head[i] == Rights(isDir);
    }
    ListingLineIsJoin(isDir, st, name);
    SplitJoin(parts, ' ');
  }

  /** Every listing line can be read back, as long as the name has no space. */
  lemma ListingLineRoundTrip(isDir: bool, st: Stat, name: string)
    requires ' ' !in name
    ensures ParseListingLine(ListingLine(isDir, st, name)) == Some(Entry(isDir, st, name))
  {
    var times := Split(st.mtime, ' ');
    var f := LeadingFields(isDir, st) + times + [name];
    ListingLineFields(isDir, st, name);
    JoinSplit(st.mtime, ' ');
    assert f[5..|f| - 1] == times;
  }
}
