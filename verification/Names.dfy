/**
  Names of keys and namespaces, and the paths they are stored at.

  The alphabet and the length limit of names belong to the key-value interface the store
  implements; all that is needed of them is that neither the path separator nor the
  extension separator is a letter of a name.
*/
module Names {
  datatype Rules = Rules(alphabet: set<char>, maxLen: nat)

  ghost predicate Sane(r: Rules) {
    '/' !in r.alphabet && '.' !in r.alphabet
  }

  /** A namespace: one directory under the data directory. */
  datatype Dir = Dir(primary: string, secondary: string)

  datatype Key = Key(dir: Dir, name: string)

  datatype NameError = EmptyKey | EmptyPrimary | BadName

  predicate ValidStr(r: Rules, s: string) {
    |s| <= r.maxLen && forall c :: c in s ==> c in r.alphabet
  }

  datatype Checked = Fine | Refused(why: NameError)

  function CheckDir(r: Rules, d: Dir): Checked {
    if d.primary == "" && d.secondary != "" then Refused(EmptyPrimary)
    else if !ValidStr(r, d.primary) || !ValidStr(r, d.secondary) then Refused(BadName)
    else Fine
  }

  /** The check made of a key before anything else is done with it. */
  function CheckKey(r: Rules, k: Key): Checked {
    if k.name == "" then Refused(EmptyKey)
    else if k.dir.primary == "" && k.dir.secondary != "" then Refused(EmptyPrimary)
    else if !ValidStr(r, k.dir.primary) || !ValidStr(r, k.dir.secondary) || !ValidStr(r, k.name) then Refused(BadName)
    else Fine
  }

  predicate ValidDir(r: Rules, d: Dir) {
    CheckDir(r, d).Fine?
  }

  predicate ValidKey(r: Rules, k: Key) {
    CheckKey(r, k).Fine?
  }

  /** Which keys are refused, and why, in plain terms. */
  lemma KeyRefusal(r: Rules, k: Key)
    ensures var parts := [k.dir.primary, k.dir.secondary, k.name];
      var bad := exists part :: part in parts && (|part| > r.maxLen || exists c :: c in part && c !in r.alphabet);
      var misplaced := k.dir.primary == "" && k.dir.secondary != "";
      && (CheckKey(r, k) == Refused(EmptyKey) <==> k.name == "")
      && (CheckKey(r, k) == Refused(EmptyPrimary) <==> k.name != "" && misplaced)
      && (CheckKey(r, k) == Refused(BadName) <==> k.name != "" && !misplaced && bad)
      && (ValidKey(r, k) <==> k.name != "" && !misplaced && !bad)
  {
    assert forall part :: part in [k.dir.primary, k.dir.secondary, k.name] <==>
      part == k.dir.primary || part == k.dir.secondary || part == k.name;
  }

  lemma DirRefusal(r: Rules, d: Dir)
    ensures var parts := [d.primary, d.secondary];
      var bad := exists part :: part in parts && (|part| > r.maxLen || exists c :: c in part && c !in r.alphabet);
      var misplaced := d.primary == "" && d.secondary != "";
      && (CheckDir(r, d) == Refused(EmptyPrimary) <==> misplaced)
      && (CheckDir(r, d) == Refused(BadName) <==> !misplaced && bad)
      && (ValidDir(r, d) <==> !misplaced && !bad)
  {
    assert forall part :: part in [d.primary, d.secondary] <==> part == d.primary || part == d.secondary;
  }

  // ---------- paths ----------

  /** PathBuf::push of a relative name: one separator, none doubled. */
  function Push(path: string, name: string): string {
    if path == "" || path[|path|-1] == '/' then path + name else path + "/" + name
  }

  function DirPath(root: string, d: Dir): string {
    var p := Push(root, d.primary);
    if d.secondary == "" then p else Push(p, d.secondary)
  }

  function KeyPath(root: string, k: Key): string {
    Push(DirPath(root, k.dir), k.name)
  }

  /** Index of the last `c` in `s`, or -1. */
  function LastIndex(s: string, c: char): (i: int)
    ensures -1 <= i < |s|
    ensures i >= 0 ==> s[i] == c && c !in s[i+1..]
    ensures i < 0 ==> c !in s
  {
    if s == "" then -1
    else if s[|s|-1] == c then |s| - 1
    else
      var i := LastIndex(s[..|s|-1], c);
      assert s == s[..|s|-1] + [s[|s|-1]];
      assert i >= 0 ==> s[i+1..] == s[..|s|-1][i+1..] + [s[|s|-1]];
      i
  }

  function FileName(path: string): string {
    path[LastIndex(path, '/') + 1..]
  }

  /** The part of a file name after its last dot, unless the name begins with that dot. */
  function Extension(path: string): string {
    var name := FileName(path);
    var i := LastIndex(name, '.');
    if i <= 0 then "" else name[i+1..]
  }

  /** PathBuf::set_extension. */
  function WithExtension(path: string, ext: string): string {
    var name := FileName(path);
    var i := LastIndex(name, '.');
    var stem := if i <= 0 then path else path[..|path| - |name| + i];
    stem + "." + ext
  }

  /** Decimal printing. */
  function Decimal(n: nat): (s: string)
    ensures |s| > 0 && forall c :: c in s ==> '0' <= c <= '9'
  {
    var digit := ['0' + (n % 10) as char];
    if n < 10 then digit else Decimal(n / 10) + digit
  }

  function TempExtension(n: nat): string {
    Decimal(n) + ".tmp"
  }

  /** Where the n-th write of an instance puts the bytes of key `k` first. */
  function TempPath(root: string, k: Key, n: nat): string {
    WithExtension(KeyPath(root, k), TempExtension(n))
  }

  // ---------- printing numbers ----------

  lemma {:induction false} DecimalInjective(m: nat, n: nat)
    requires Decimal(m) == Decimal(n)
    ensures m == n
    decreases m
  {
    var dm, dn := ['0' + (m % 10) as char], ['0' + (n % 10) as char];
    if m >= 10 && n >= 10 {
      assert Decimal(m)[..|Decimal(m)|-1] == Decimal(m / 10);
      assert Decimal(n)[..|Decimal(n)|-1] == Decimal(n / 10);
      DecimalInjective(m / 10, n / 10);
    }
    assert Decimal(m)[|Decimal(m)|-1] == dm[0];
    assert Decimal(n)[|Decimal(n)|-1] == dn[0];
  }

  /** Numbers are printed in decimal, most significant digit first. */
  lemma DecimalPrints(m: nat, d: nat)
    requires d < 10
    ensures Decimal(d) == ["0123456789"[d]]
    ensures m > 0 ==> Decimal(10 * m + d) == Decimal(m) + ["0123456789"[d]]
  {
    assert (10 * m + d) / 10 == m && (10 * m + d) % 10 == d;
  }

  // ---------- splitting paths ----------

  lemma {:induction false} LastIndexOf(a: string, c: char, x: string)
    requires c !in x
    ensures LastIndex(a + [c] + x, c) == |a|
  {
    if x == "" {
      assert a + [c] + x == a + [c];
    } else {
      var s := a + [c] + x;
      assert s[..|s|-1] == a + [c] + x[..|x|-1];
      LastIndexOf(a, c, x[..|x|-1]);
    }
  }

  /** A string splits in one way only into what precedes and follows its last `c`. */
  lemma SplitLast(a: string, b: string, x: string, y: string, c: char)
    requires a + [c] + x == b + [c] + y && c !in x && c !in y
    ensures a == b && x == y
  {
    LastIndexOf(a, c, x);
    LastIndexOf(b, c, y);
    var s := a + [c] + x;
    assert a == s[..|a|] && b == s[..|b|];
    assert x == s[|a|+1..] && y == s[|b|+1..];
  }

  lemma NoIndex(s: string, c: char)
    requires c !in s
    ensures LastIndex(s, c) == -1
  {
  }

  /** A data directory: not empty, and not written with a separator at its end. */
  ghost predicate ProperRoot(root: string) {
    root != "" && root[|root|-1] != '/'
  }

  /** Every key file path is its directory, one separator, and the key. */
  lemma KeyPathSplits(r: Rules, root: string, k: Key)
    requires Sane(r) && ProperRoot(root) && ValidKey(r, k)
    ensures KeyPath(root, k) == Stem(root, k.dir) + "/" + k.name
    ensures '/' !in k.name && '.' !in k.name
    ensures '/' !in k.dir.primary && '/' !in k.dir.secondary
  {
    assert '/' !in k.name && '/' !in k.dir.primary && '/' !in k.dir.secondary;
    var p := Push(root, k.dir.primary);
    if k.dir.primary == "" {
      assert p == root + "/";
    } else {
      assert p[|p|-1] in k.dir.primary;
    }
  }

  /** Where keys are, spelled out. */
  lemma PathsAre(root: string, p: string, s: string, name: string)
    requires ProperRoot(root) && p != "" && p[|p|-1] != '/' && s != "" && s[|s|-1] != '/'
    ensures KeyPath(root, Key(Dir(p, s), name)) == root + "/" + p + "/" + s + "/" + name
    ensures KeyPath(root, Key(Dir(p, ""), name)) == root + "/" + p + "/" + name
    ensures KeyPath(root, Key(Dir("", ""), name)) == root + "/" + name
  {
    assert Push(root, "") == root + "/";
  }

  /** A key is checked no less than its namespace. */
  lemma KeyHasDir(r: Rules, k: Key)
    requires ValidKey(r, k)
    ensures ValidDir(r, k.dir) && ValidStr(r, k.name) && k.name != ""
  {
  }

  /** The directory of a namespace, without a separator at its end. */
  function Stem(root: string, d: Dir): string {
    root + (if d.primary == "" then "" else "/" + d.primary)
         + (if d.secondary == "" then "" else "/" + d.secondary)
  }

  function Slashed(name: string): string {
    if name == "" then "" else "/" + name
  }

  lemma StemInjective(r: Rules, root: string, d: Dir, e: Dir)
    requires Sane(r) && ValidDir(r, d) && ValidDir(r, e)
    requires Stem(root, d) == Stem(root, e)
    ensures d == e
  {
    assert '/' !in d.primary && '/' !in d.secondary && '/' !in e.primary && '/' !in e.secondary;
    var x, y := Stem(root, d)[|root|..], Stem(root, e)[|root|..];
    assert x == Slashed(d.primary) + Slashed(d.secondary);
    assert y == Slashed(e.primary) + Slashed(e.secondary);
    SameParts(d, e, x);
  }

  lemma SameParts(d: Dir, e: Dir, x: string)
    requires '/' !in d.primary && '/' !in d.secondary && '/' !in e.primary && '/' !in e.secondary
    requires d.primary == "" ==> d.secondary == ""
    requires e.primary == "" ==> e.secondary == ""
    requires x == Slashed(d.primary) + Slashed(d.secondary)
    requires x == Slashed(e.primary) + Slashed(e.secondary)
    ensures d == e
  {
    if d.primary != "" && e.primary != "" {
      if d.secondary != "" && e.secondary != "" {
        assert x == "/" + d.primary + ['/'] + d.secondary == "/" + e.primary + ['/'] + e.secondary;
        SplitLast("/" + d.primary, "/" + e.primary, d.secondary, e.secondary, '/');
        assert ("/" + d.primary)[1..] == d.primary && ("/" + e.primary)[1..] == e.primary;
      } else if d.secondary == "" && e.secondary == "" {
        assert x[1..] == d.primary && x[1..] == e.primary;
      } else if d.secondary == "" {
        assert x == "" + ['/'] + d.primary == "/" + e.primary + ['/'] + e.secondary;
        SplitLast("", "/" + e.primary, d.primary, e.secondary, '/');
      } else {
        assert x == "/" + d.primary + ['/'] + d.secondary == "" + ['/'] + e.primary;
        SplitLast("/" + d.primary, "", d.secondary, e.primary, '/');
      }
    }
  }

  /** Two valid keys are stored at one path only if they are the same key. */
  lemma KeyPathInjective(r: Rules, root: string, k: Key, l: Key)
    requires Sane(r) && ProperRoot(root) && ValidKey(r, k) && ValidKey(r, l)
    ensures KeyPath(root, k) == KeyPath(root, l) <==> k == l
  {
    if KeyPath(root, k) == KeyPath(root, l) {
      KeyPathSplits(r, root, k);
      KeyPathSplits(r, root, l);
      SplitLast(Stem(root, k.dir), Stem(root, l.dir), k.name, l.name, '/');
      StemInjective(r, root, k.dir, l.dir);
    }
  }

  /** Without the rule that a secondary namespace needs a primary one, two keys would collide. */
  lemma PrimaryRuleNeeded(root: string, s: string, name: string)
    requires ProperRoot(root) && s != "" && s[|s|-1] != '/'
    ensures Key(Dir("", s), name) != Key(Dir(s, ""), name)
    ensures KeyPath(root, Key(Dir("", s), name)) == KeyPath(root, Key(Dir(s, ""), name))
  {
    assert Push(root, "") == root + "/";
    assert Push(Push(root, ""), s) == root + "/" + s;
  }

  /** The temporary path of a valid key is its own path with `.n.tmp` added. */
  lemma TempPathIs(r: Rules, root: string, k: Key, n: nat)
    requires Sane(r) && ProperRoot(root) && ValidKey(r, k)
    ensures FileName(KeyPath(root, k)) == k.name
    ensures TempPath(root, k, n) == KeyPath(root, k) + "." + TempExtension(n)
    ensures FileName(TempPath(root, k, n)) == k.name + "." + TempExtension(n)
    ensures TempPath(root, k, n) == Stem(root, k.dir) + "/" + (k.name + "." + TempExtension(n))
    ensures '/' !in k.name + "." + TempExtension(n)
  {
    hide LastIndex;
    hide Decimal;
    hide KeyPath;
    KeyPathSplits(r, root, k);
    var stem := Stem(root, k.dir);
    hide Stem;
    LastIndexOf(stem, '/', k.name);
    assert FileName(KeyPath(root, k)) == k.name;
    NoIndex(k.name, '.');
    var name := k.name + "." + TempExtension(n);
    assert '/' !in name;
    assert TempPath(root, k, n) == stem + "/" + name;
    LastIndexOf(stem, '/', name);
  }

  /** A temporary file has extension `tmp`, a key file none: what `list` goes by. */
  lemma ExtensionTells(r: Rules, root: string, k: Key, n: nat)
    requires Sane(r) && ProperRoot(root) && ValidKey(r, k)
    ensures Extension(TempPath(root, k, n)) == "tmp"
    ensures Extension(KeyPath(root, k)) == ""
  {
    hide LastIndex;
    hide Decimal;
    hide TempPath;
    hide KeyPath;
    hide Stem;
    TempPathIs(r, root, k, n);
    KeyPathSplits(r, root, k);
    NoIndex(k.name, '.');
    var a := k.name + "." + Decimal(n);
    assert FileName(TempPath(root, k, n)) == a + ['.'] + "tmp";
    LastIndexOf(a, '.', "tmp");
  }

  lemma TmpEnding(name: string)
    requires |name| > 4 && name[|name|-4..] == ".tmp"
    ensures LastIndex(name, '.') == |name| - 4 && name[|name|-3..] == "tmp"
  {
    hide LastIndex;
    var stem := name[..|name|-4];
    LastIndexOf(stem, '.', "tmp");
    assert name == stem + ".tmp" == stem + ['.'] + "tmp";
    assert name[|name|-3..] == ".tmp"[1..];
  }

  lemma TmpPart(name: string, i: int)
    requires 0 < i < |name| && name[i] == '.' && name[i+1..] == "tmp"
    ensures |name| > 4 && name[|name|-4..] == ".tmp"
  {
    assert |name| == i + 4;
    assert name[i..] == [name[i]] + name[i+1..];
  }

  lemma FileNameIs(stem: string, name: string)
    requires '/' !in name
    ensures FileName(stem + "/" + name) == name
  {
    hide LastIndex;
    LastIndexOf(stem, '/', name);
    assert stem + ['/'] + name == stem + "/" + name;
  }

  /** The entries taken for temporary: those whose name ends in `.tmp` and is more than that. */
  lemma TempEntries(stem: string, name: string)
    requires '/' !in name
    ensures Extension(stem + "/" + name) == "tmp" <==> |name| > 4 && name[|name|-4..] == ".tmp"
  {
    hide LastIndex;
    hide FileName;
    FileNameIs(stem, name);
    var i := LastIndex(name, '.');
    if i > 0 && name[i+1..] == "tmp" {
      TmpPart(name, i);
    }
    if |name| > 4 && name[|name|-4..] == ".tmp" {
      TmpEnding(name);
    }
  }

  lemma TempTailSplits(p: string, m: nat, q: string, n: nat)
    requires p + "." + TempExtension(m) == q + "." + TempExtension(n)
    ensures p == q && m == n
  {
    var a, b := p + "." + Decimal(m), q + "." + Decimal(n);
    assert p + "." + TempExtension(m) == a + ['.'] + "tmp";
    assert q + "." + TempExtension(n) == b + ['.'] + "tmp";
    SplitLast(a, b, "tmp", "tmp", '.');
    SplitLast(p, q, Decimal(m), Decimal(n), '.');
    DecimalInjective(m, n);
  }

  /** Different writes of an instance, of whatever keys, use different temporary paths. */
  lemma TempPathInjective(r: Rules, root: string, k: Key, m: nat, l: Key, n: nat)
    requires Sane(r) && ProperRoot(root) && ValidKey(r, k) && ValidKey(r, l)
    ensures TempPath(root, k, m) == TempPath(root, l, n) <==> k == l && m == n
  {
    if TempPath(root, k, m) == TempPath(root, l, n) {
      TempPathIs(r, root, k, m);
      TempPathIs(r, root, l, n);
      TempTailSplits(KeyPath(root, k), m, KeyPath(root, l), n);
      KeyPathInjective(r, root, k, l);
    }
  }

  /** A temporary path is never the path of a key. */
  lemma TempPathIsNoKey(r: Rules, root: string, k: Key, n: nat, l: Key)
    requires Sane(r) && ProperRoot(root) && ValidKey(r, k) && ValidKey(r, l)
    ensures TempPath(root, k, n) != KeyPath(root, l)
  {
    ExtensionTells(r, root, k, n);
    ExtensionTells(r, root, l, n);
  }
}
