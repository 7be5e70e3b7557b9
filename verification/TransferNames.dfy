/** File names in offers (internal/filetransfer/filetransfer_windows_send.go and
    filetransfer_windows_receive.go). `lower` is the runtime's case folding, one character
    at a time; `sanitize` is sanitizeTransferName, which returns "" for an unusable name. */
module TransferNames {
  import opened Bytes
  import opened Options
  import opened FileReceive
  import opened Seqs

  // Decimal numbers

  function Digit(d: nat): char
    requires d < 10
  {
    ['0', '1', '2', '3', '4', '5', '6', '7', '8', '9'][d]
  }

  function Decimal(n: nat): (s: string)
    ensures s != []
  {
    (if n < 10 then [] else Decimal(n / 10)) + [Digit(n % 10)]
  }

  lemma {:induction false} DecimalInjective(a: nat, b: nat)
    requires Decimal(a) == Decimal(b)
    ensures a == b
    decreases a + b
  {
    var s, t := Decimal(a), Decimal(b);
    assert s[|s| - 1] == Digit(a % 10) && t[|t| - 1] == Digit(b % 10);
    assert a % 10 == b % 10;
    assert s[..|s| - 1] == (if a < 10 then [] else Decimal(a / 10));
    assert t[..|t| - 1] == (if b < 10 then [] else Decimal(b / 10));
    if a >= 10 && b >= 10 {
      DecimalInjective(a / 10, b / 10);
    }
  }

  // Names and keys

  predicate Plain(c: char) {
    c in "0123456789 ()"
  }

  /** Folding leaves digits, spaces and parentheses alone. */
  ghost predicate Folding(lower: char -> char) {
    forall c :: Plain(c) ==> lower(c) == c
  }

  /** The key under which a name counts as used. */
  function Key(lower: char -> char, s: string): (k: string)
    ensures |k| == |s|
  {
    if s == [] then [] else Key(lower, s[..|s| - 1]) + [lower(s[|s| - 1])]
  }

  /** The extension: from the last dot on. */
  function Ext(s: string): (e: string)
    ensures |e| <= |s| && s[|s| - |e|..] == e
  {
    if s == [] then []
    else if s[|s| - 1] == '.' then [s[|s| - 1]]
    else
      var e := Ext(s[..|s| - 1]);
      if e == [] then [] else e + [s[|s| - 1]]
  }

  function Stem(s: string): string {
    s[..|s| - |Ext(s)|]
  }

  function Candidate(base: string, attempt: nat): string {
    Stem(base) + (" (" + Decimal(attempt) + ")") + Ext(base)
  }

  lemma {:induction false} KeyConcat(lower: char -> char, a: string, b: string)
    ensures Key(lower, a + b) == Key(lower, a) + Key(lower, b)
  {
    if b == [] {
      assert a + b == a;
    } else {
      assert (a + b)[..|a + b| - 1] == a + b[..|b| - 1];
      KeyConcat(lower, a, b[..|b| - 1]);
    }
  }

  lemma {:induction false} KeyPlain(lower: char -> char, s: string)
    requires Folding(lower) && forall i :: 0 <= i < |s| ==> Plain(s[i])
    ensures Key(lower, s) == s
  {
    if s != [] {
      KeyPlain(lower, s[..|s| - 1]);
      assert Plain(s[|s| - 1]);
    }
  }

  lemma {:induction false} DecimalPlain(n: nat)
    ensures forall i :: 0 <= i < |Decimal(n)| ==> Plain(Decimal(n)[i])
  {
    assert Plain(Digit(n % 10));
    if n >= 10 {
      DecimalPlain(n / 10);
    }
  }

  function Suffix(attempt: nat): string {
    " (" + Decimal(attempt) + ")"
  }

  lemma SuffixPlain(n: nat)
    ensures forall i :: 0 <= i < |Suffix(n)| ==> Plain(Suffix(n)[i])
  {
    DecimalPlain(n);
  }

  lemma Middle<T>(a: seq<T>, b: seq<T>, c: seq<T>, d: seq<T>)
    requires a + b + d == a + c + d
    ensures b == c
  {
    assert |b| == |c|;
    assert b == (a + b + d)[|a|..|a| + |b|];
    assert c == (a + c + d)[|a|..|a| + |c|];
  }

  /** Different attempts give different keys. */
  lemma CandidateKeys(lower: char -> char, base: string, a: nat, b: nat)
    requires Folding(lower) && Key(lower, Candidate(base, a)) == Key(lower, Candidate(base, b))
    ensures a == b
  {
    CandidateKey(lower, base, a);
    CandidateKey(lower, base, b);
    Middle(Key(lower, Stem(base)), Suffix(a), Suffix(b), Key(lower, Ext(base)));
    Middle(" (", Decimal(a), Decimal(b), ")");
    DecimalInjective(a, b);
  }

  lemma CandidateKey(lower: char -> char, base: string, a: nat)
    requires Folding(lower)
    ensures Key(lower, Candidate(base, a)) == Key(lower, Stem(base)) + Suffix(a) + Key(lower, Ext(base))
  {
    KeyConcat(lower, Stem(base) + Suffix(a), Ext(base));
    KeyConcat(lower, Stem(base), Suffix(a));
    SuffixPlain(a);
    KeyPlain(lower, Suffix(a));
  }

  lemma {:induction false} NoExtension(s: string)
    requires '.' !in s
    ensures Ext(s) == ""
  {
    if s != [] {
      NoExtension(s[..|s| - 1]);
    }
  }

  lemma {:induction false} Extension(x: string, y: string)
    requires '.' !in y
    ensures Ext(x + "." + y) == "." + y && Stem(x + "." + y) == x
  {
    var s := x + "." + y;
    if y == [] {
      assert s[|s| - 1] == '.';
    } else {
      var n := |y| - 1;
      Extension(x, y[..n]);
      assert s[..|s| - 1] == x + "." + y[..n];
      assert s[|s| - 1] == y[n];
      assert "." + y[..n] + [y[n]] == "." + y;
    }
  }

  /** The number goes before the last dot, so that a name keeps its extension; a name without
      one has it at the end. */
  lemma CandidateShape(x: string, y: string, attempt: nat)
    requires '.' !in y
    ensures Candidate(x + "." + y, attempt) == x + " (" + Decimal(attempt) + ")." + y
    ensures Candidate(y, attempt) == y + " (" + Decimal(attempt) + ")"
  {
    Extension(x, y);
    NoExtension(y);
    assert Stem(y) == y;
    hide Ext;
    hide Stem;
    hide Decimal;
    Numbered(x, Decimal(attempt), y);
    Numbered(y, Decimal(attempt), "");
  }

  lemma Numbered(x: string, d: string, y: string)
    ensures x + (" (" + d + ")") + ("." + y) == x + " (" + d + ")." + y
    ensures x + (" (" + d + ")") + y == x + " (" + d + ")" + y
    ensures x + (" (" + d + ")") + "" == x + " (" + d + ")"
  {
    assert (x + " (" + d + ")") + y == x + (" (" + d + ")") + y;
  }

  /** The number that these digits write. */
  function Number(s: string): nat {
    if s == [] then 0
    else 10 * Number(s[..|s| - 1]) + (if '0' <= s[|s| - 1] <= '9' then s[|s| - 1] as int - '0' as int else 0)
  }

  lemma {:induction false} DecimalReads(n: nat)
    ensures Number(Decimal(n)) == n && (n > 0 ==> Decimal(n)[0] != '0')
  {
    var s := Decimal(n);
    assert s[..|s| - 1] == if n < 10 then [] else Decimal(n / 10);
    if n >= 10 {
      DecimalReads(n / 10);
    }
  }

  // Choosing a name

  /** The name itself, or the first numbered candidate, whose key is not in use. */
  predicate Picked(lower: char -> char, base: string, used: set<string>, name: string, attempt: nat) {
    if Key(lower, base) !in used then name == base && attempt == 1
    else
      && attempt >= 2 && name == Candidate(base, attempt) && Key(lower, name) !in used
      && forall a :: 2 <= a < attempt ==> Key(lower, Candidate(base, a)) in used
  }

  lemma PickedIsFresh(lower: char -> char, base: string, used: set<string>, name: string, attempt: nat)
    requires Picked(lower, base, used, name, attempt)
    ensures Key(lower, name) !in used
  {
  }

  lemma SmallerSet<T>(a: set<T>, b: set<T>)
    requires a <= b
    ensures |a| <= |b|
  {
    if a != {} {
      var x :| x in a;
      SmallerSet(a - {x}, b - {x});
    }
  }

  function Base(sanitized: string): string {
    if sanitized == "" then "file" else sanitized
  }

  /** Keys of the candidates before attempt n. */
  ghost predicate Tried(lower: char -> char, base: string, n: nat, keys: set<string>) {
    && |keys| == n - 2
    && (forall k :: k in keys ==> IsTried(lower, base, n, k))
    && forall a :: 2 <= a < n ==> Key(lower, Candidate(base, a)) in keys
  }

  ghost predicate IsTried(lower: char -> char, base: string, n: nat, k: string) {
    exists a: nat :: 2 <= a < n && k == Key(lower, Candidate(base, a))
  }

  lemma TriedNext(lower: char -> char, base: string, n: nat, keys: set<string>)
    requires Folding(lower) && n >= 2 && Tried(lower, base, n, keys)
    ensures Tried(lower, base, n + 1, keys + {Key(lower, Candidate(base, n))})
  {
    hide Key;
    hide Candidate;
    var key := Key(lower, Candidate(base, n));
    if key in keys {
      assert IsTried(lower, base, n, key);
      var a: nat :| 2 <= a < n && key == Key(lower, Candidate(base, a));
      CandidateKeys(lower, base, a, n);
    }
    forall k | k in keys
      ensures IsTried(lower, base, n + 1, k)
    {
      assert IsTried(lower, base, n, k);
    }
    assert IsTried(lower, base, n + 1, key);
  }

  /** uniqueTransferName. Its loop ends because each candidate has its own key and only
      finitely many keys are in use. */
  method UniqueName(lower: char -> char, sanitized: string, used: set<string>)
    returns (name: string, used': set<string>, ghost attempt: nat)
    requires Folding(lower)
    ensures Picked(lower, Base(sanitized), used, name, attempt)
    ensures used' == used + {Key(lower, name)} && attempt <= |used| + 2
  {
    hide Key;
    hide Candidate;
    var base := Base(sanitized);
    if Key(lower, base) !in used {
      return base, used + {Key(lower, base)}, 1;
    }
    var n := 2;
    ghost var tried: set<string> := {};
    while true
      invariant 2 <= n <= |used| + 2 && tried <= used && Tried(lower, base, n, tried)
      decreases |used| + 2 - n
    {
      var candidate := Candidate(base, n);
      var key := Key(lower, candidate);
      if key !in used {
        return candidate, used + {key}, n;
      }
      TriedNext(lower, base, n, tried);
      tried := tried + {key};
      SmallerSet(tried, used);
      n := n + 1;
    }
  }

  // Offers

  predicate Distinct(lower: char -> char, names: seq<string>) {
    forall i, j :: 0 <= i < j < |names| ==> Key(lower, names[i]) != Key(lower, names[j])
  }

  function Keys(lower: char -> char, names: seq<string>): set<string> {
    set i | 0 <= i < |names| :: Key(lower, names[i])
  }

  lemma KeysSnoc(lower: char -> char, names: seq<string>, x: string)
    ensures Keys(lower, names + [x]) == Keys(lower, names) + {Key(lower, x)}
  {
    var all := names + [x];
    assert all[|names|] == x;
    forall k | k in Keys(lower, names) + {Key(lower, x)}
      ensures k in Keys(lower, all)
    {
      if k in Keys(lower, names) {
        var i :| 0 <= i < |names| && k == Key(lower, names[i]);
        assert all[i] == names[i];
      }
    }
  }

  lemma DistinctSnoc(lower: char -> char, names: seq<string>, x: string)
    requires Distinct(lower, names)
    ensures Distinct(lower, names + [x]) <==> Key(lower, x) !in Keys(lower, names)
  {
    var all := names + [x];
    if Key(lower, x) in Keys(lower, names) {
      var i :| 0 <= i < |names| && Key(lower, x) == Key(lower, names[i]);
      assert all[i] == names[i] && all[|names|] == x;
    } else {
      forall i, j | 0 <= i < j < |all|
        ensures Key(lower, all[i]) != Key(lower, all[j])
      {
        assert Key(lower, all[i]) in Keys(lower, names);
      }
    }
  }

  /** What os.Stat found for a path: nothing usable, or a file. */
  datatype Path = Skipped | File(base: string, size: U64)

  function FilesOf(paths: seq<Path>): (files: seq<Path>)
    ensures forall i :: 0 <= i < |files| ==> files[i].File?
  {
    if paths == [] then []
    else FilesOf(paths[..|paths| - 1]) + (if paths[|paths| - 1].File? then [paths[|paths| - 1]] else [])
  }

  lemma {:induction false} FilesConcat(a: seq<Path>, b: seq<Path>)
    ensures FilesOf(a + b) == FilesOf(a) + FilesOf(b)
  {
    if b == [] {
      assert a + b == a;
    } else {
      hide FilesOf;
      var n := |b| - 1;
      FilesConcat(a, b[..n]);
      FilesSnoc(a + b[..n], b[n]);
      FilesSnoc(b[..n], b[n]);
      assert a + b == (a + b[..n]) + [b[n]] && b == b[..n] + [b[n]];
      Rebracket(FilesOf(a), FilesOf(b[..n]), if b[n].File? then [b[n]] else []);
    }
  }

  lemma FilesSnoc(a: seq<Path>, p: Path)
    ensures FilesOf(a + [p]) == FilesOf(a) + (if p.File? then [p] else [])
  {
    assert (a + [p])[..|a|] == a;
  }

  /** The files among the paths, in their order, and nothing else. */
  lemma FilesInOrder(a: seq<Path>, p: Path, b: seq<Path>)
    ensures FilesOf(a + [p] + b) == FilesOf(a) + (if p == Skipped then [] else [p]) + FilesOf(b) && FilesOf([]) == []
  {
    FilesSnoc(a, p);
    FilesConcat(a + [p], b);
  }

  /** Names chosen one after another for these files. */
  ghost predicate Named(lower: char -> char, sanitize: string -> string, files: seq<Path>, names: seq<string>) {
    |names| == |files| && forall i :: 0 <= i < |files| ==> NamedAt(lower, sanitize, files, names, i)
  }

  ghost predicate NamedAt(lower: char -> char, sanitize: string -> string, files: seq<Path>, names: seq<string>, i: nat)
    requires i < |files| == |names|
  {
    files[i].File? && NameFor(lower, sanitize(files[i].base), Keys(lower, names[..i]), names[i])
  }

  ghost predicate NameFor(lower: char -> char, sanitized: string, used: set<string>, name: string) {
    exists attempt: nat :: Picked(lower, Base(sanitized), used, name, attempt)
  }

  lemma NamedSnoc(lower: char -> char, sanitize: string -> string, files: seq<Path>, names: seq<string>, f: Path, x: string)
    requires Named(lower, sanitize, files, names)
    requires f.File? && NameFor(lower, sanitize(f.base), Keys(lower, names), x)
    ensures Named(lower, sanitize, files + [f], names + [x])
  {
    var fs, ns := files + [f], names + [x];
    assert ns[..|names|] == names;
    forall i | 0 <= i < |fs|
      ensures NamedAt(lower, sanitize, fs, ns, i)
    {
      if i < |files| {
        assert NamedAt(lower, sanitize, files, names, i);
        assert ns[..i] == names[..i];
      }
    }
  }

  function Sizes(files: seq<Path>): (s: seq<U64>)
    requires forall i :: 0 <= i < |files| ==> files[i].File?
    ensures |s| == |files| && forall i :: 0 <= i < |files| ==> s[i] == files[i].size
  {
    if files == [] then [] else Sizes(files[..|files| - 1]) + [files[|files| - 1].size]
  }

  /** An offer of these files. */
  ghost predicate Offers(lower: char -> char, sanitize: string -> string, files: seq<Path>,
                         names: seq<string>, sizes: seq<U64>, total: U64) {
    && Named(lower, sanitize, files, names) && Distinct(lower, names)
    && (forall i :: 0 <= i < |files| ==> files[i].File?)
    && sizes == Sizes(files) && total == Sum64(sizes)
  }

  method AddFile(lower: char -> char, sanitize: string -> string, ghost files: seq<Path>, f: Path,
                 names: seq<string>, sizes: seq<U64>, total: U64, used: set<string>)
    returns (names': seq<string>, sizes': seq<U64>, total': U64, used': set<string>)
    requires Folding(lower) && Offers(lower, sanitize, files, names, sizes, total) && used == Keys(lower, names) && f.File?
    ensures Offers(lower, sanitize, files + [f], names', sizes', total') && used' == Keys(lower, names')
  {
    hide Key;
    hide Keys;
    hide Picked;
    hide Named;
    hide Distinct;
    var name;
    ghost var attempt;
    name, used', attempt := UniqueName(lower, sanitize(f.base), used);
    assert NameFor(lower, sanitize(f.base), Keys(lower, names), name);
    NamedSnoc(lower, sanitize, files, names, f, name);
    PickedIsFresh(lower, Base(sanitize(f.base)), used, name, attempt);
    DistinctSnoc(lower, names, name);
    KeysSnoc(lower, names, name);
    assert (sizes + [f.size])[..|sizes|] == sizes && (files + [f])[..|files|] == files;
    names' := names + [name];
    sizes' := sizes + [f.size];
    total' := (total + f.size) % TWO64;
  }

  /** StartSend up to the offer: one name per file, in order, no two alike in any case,
      and the total the receiver will compute from the sizes. */
  method BuildOffer(lower: char -> char, sanitize: string -> string, paths: seq<Path>)
    returns (names: seq<string>, sizes: seq<U64>, total: U64)
    requires Folding(lower)
    ensures Offers(lower, sanitize, FilesOf(paths), names, sizes, total)
  {
    hide Offers;
    names, sizes, total := [], [], 0;
    NoOffer(lower, sanitize);
    var used := {};
    var n := 0;
    while n < |paths|
      invariant n <= |paths| && used == Keys(lower, names)
      invariant Offers(lower, sanitize, FilesOf(paths[..n]), names, sizes, total)
    {
      assert paths[..n + 1][..n] == paths[..n];
      if paths[n].File? {
        names, sizes, total, used := AddFile(lower, sanitize, FilesOf(paths[..n]), paths[n], names, sizes, total, used);
      } else {
        assert FilesOf(paths[..n + 1]) == FilesOf(paths[..n]);
      }
      n := n + 1;
    }
    assert paths[..n] == paths;
  }

  lemma NoOffer(lower: char -> char, sanitize: string -> string)
    ensures Offers(lower, sanitize, [], [], [], 0) && Keys(lower, []) == {}
  {
  }

  function Sanitized(sanitize: string -> string, names: seq<string>): (s: seq<string>)
    ensures |s| == |names|
  {
    seq(|names|, i requires 0 <= i < |names| => sanitize(names[i]))
  }

  /** What the receiver accepts. */
  predicate Acceptable(lower: char -> char, sanitize: string -> string, names: seq<string>) {
    && (forall i :: 0 <= i < |names| ==> sanitize(names[i]) != "")
    && Distinct(lower, Sanitized(sanitize, names))
  }

  lemma AcceptableMeans(lower: char -> char, sanitize: string -> string, names: seq<string>)
    ensures Acceptable(lower, sanitize, names) <==>
              && (forall i :: 0 <= i < |names| ==> sanitize(names[i]) != "")
              && forall i, j :: 0 <= i < j < |names| ==> Key(lower, sanitize(names[i])) != Key(lower, sanitize(names[j]))
  {
    hide Key;
    var s := Sanitized(sanitize, names);
    if Distinct(lower, s) {
      forall i, j | 0 <= i < j < |names|
        ensures Key(lower, sanitize(names[i])) != Key(lower, sanitize(names[j]))
      {
        assert Key(lower, s[i]) != Key(lower, s[j]);
      }
    }
  }

  /** normalizeInboundOfferNames: accepts exactly the lists of usable names no two of
      which are alike. */
  method Normalize(lower: char -> char, sanitize: string -> string,
                   offered: seq<string>) returns (names: Option<seq<string>>)
    ensures names.Some? <==> Acceptable(lower, sanitize, offered)
    ensures names.Some? <==>
              && (forall i :: 0 <= i < |offered| ==> sanitize(offered[i]) != "")
              && forall i, j :: 0 <= i < j < |offered| ==> Key(lower, sanitize(offered[i])) != Key(lower, sanitize(offered[j]))
    ensures names.Some? ==> names.value == Sanitized(sanitize, offered)
  {
    AcceptableMeans(lower, sanitize, offered);
    hide Key;
    hide Distinct;
    hide Keys;
    var used := {};
    var out := [];
    var n := 0;
    NothingAlike(lower);
    while n < |offered|
      invariant n <= |offered| && out == Sanitized(sanitize, offered)[..n]
      invariant forall i :: 0 <= i < n ==> sanitize(offered[i]) != ""
      invariant used == Keys(lower, out) && Distinct(lower, out)
    {
      var name := sanitize(offered[n]);
      if name == "" {
        return None;
      }
      DistinctSnoc(lower, out, name);
      OneMore(Sanitized(sanitize, offered), n);
      if Key(lower, name) in used {
        DistinctPart(lower, Sanitized(sanitize, offered), n + 1);
        return None;
      }
      KeysSnoc(lower, out, name);
      used := used + {Key(lower, name)};
      out := out + [name];
      n := n + 1;
    }
    assert out == Sanitized(sanitize, offered);
    return Some(out);
  }

  lemma OneMore<T>(s: seq<T>, n: nat)
    requires n < |s|
    ensures s[..n + 1] == s[..n] + [s[n]]
  {
  }

  lemma NothingAlike(lower: char -> char)
    ensures Distinct(lower, []) && Keys(lower, []) == {}
  {
  }

  lemma DistinctPart(lower: char -> char, names: seq<string>, n: nat)
    requires n <= |names|
    ensures Distinct(lower, names) ==> Distinct(lower, names[..n])
  {
  }
}
