/** Which offers their own program accepts (internal/filetransfer/filetransfer_windows_send.go
    and filetransfer_windows_receive.go): the sender's numbered names meet the receiver's
    sanitizer, which trims the leading space that a name without a stem gets. */
module OfferNames {
  import opened Bytes
  import opened Options
  import opened FileReceive
  import opened TransferNames

  // Folding and sanitizing

  predicate Special(c: char) {
    Plain(c) || c == '.'
  }

  /** Folding leaves digits, spaces, parentheses and dots alone, and makes no new ones. */
  ghost predicate Faithful(lower: char -> char) {
    forall c :: Special(c) || Special(lower(c)) ==> lower(c) == c
  }

  /** What the offered name of a base comes to after the receiver's sanitizer. */
  function Received(base: string, attempt: nat): string {
    if attempt >= 2 && Stem(base) == [] then Candidate(base, attempt)[1..] else NameAt(base, attempt)
  }

  function NameAt(base: string, attempt: nat): string {
    if attempt >= 2 then Candidate(base, attempt) else base
  }

  /** How the sanitizer treats a base and its numbered names: only the leading space of a
      candidate without a stem goes. */
  ghost predicate Tidy(sanitize: string -> string, base: string) {
    && base != "" && base[0] != ' '
    && forall attempt: nat :: sanitize(NameAt(base, attempt)) == Received(base, attempt)
  }

  function Bases(sanitize: string -> string, files: seq<Path>): (b: seq<string>)
    requires forall i :: 0 <= i < |files| ==> files[i].File?
    ensures |b| == |files| && forall i :: 0 <= i < |files| ==> b[i] == Base(sanitize(files[i].base))
  {
    seq(|files|, i requires 0 <= i < |files| => Base(sanitize(files[i].base)))
  }

  // The condition

  /** A name that is all extension, such as ".txt". */
  predicate AllExtension(s: string) {
    s != "" && Ext(s) == s
  }

  /** How many of these names have this key. */
  function Count(lower: char -> char, bases: seq<string>, key: string): (n: nat)
    ensures n <= |bases|
  {
    if bases == [] then 0
    else Count(lower, bases[..|bases| - 1], key) + (if Key(lower, bases[|bases| - 1]) == key then 1 else 0)
  }

  /** The numbered twin of a name that is all extension, without its leading space. */
  function Bare(e: string, n: nat): string {
    "(" + Decimal(n) + ")" + e
  }

  /** The i-th file is all extension, at least n files share its key, and file m is called
      like its n-th twin without the leading space. */
  predicate ClashAt(lower: char -> char, bases: seq<string>, i: nat, m: nat, n: nat)
    requires i < |bases| && m < |bases|
  {
    && AllExtension(bases[i]) && 2 <= n <= Count(lower, bases, Key(lower, bases[i]))
    && Key(lower, bases[m]) == Key(lower, Bare(bases[i], n))
  }

  ghost predicate Clash(lower: char -> char, bases: seq<string>) {
    exists i: nat, m: nat, n: nat :: i < |bases| && m < |bases| && ClashAt(lower, bases, i, m, n)
  }

  // Names, character by character

  lemma {:induction false} KeyAt(lower: char -> char, s: string, i: nat)
    requires i < |s|
    ensures Key(lower, s)[i] == lower(s[i])
  {
    if i < |s| - 1 {
      KeyAt(lower, s[..|s| - 1], i);
    }
  }

  lemma {:induction false} DecimalDigits(n: nat, i: nat)
    requires i < |Decimal(n)|
    ensures '0' <= Decimal(n)[i] <= '9'
  {
    assert '0' <= Digit(n % 10) <= '9';
    if n >= 10 && i < |Decimal(n)| - 1 {
      DecimalDigits(n / 10, i);
    }
  }

  predicate NoDot(s: string) {
    '.' !in s
  }

  lemma NoDotSnoc(s: string, c: char)
    ensures NoDot(s + [c]) <==> NoDot(s) && c != '.'
  {
    assert (s + [c])[|s|] == c;
  }

  lemma NoDotConcat(a: string, b: string)
    ensures NoDot(a + b) <==> NoDot(a) && NoDot(b)
  {
  }

  lemma NoDotKey(lower: char -> char, s: string)
    requires Faithful(lower)
    ensures NoDot(Key(lower, s)) <==> NoDot(s)
  {
    forall i | 0 <= i < |s|
      ensures Key(lower, s)[i] == lower(s[i])
    {
      KeyAt(lower, s, i);
    }
    if !NoDot(s) {
      var i :| 0 <= i < |s| && s[i] == '.';
      assert Special('.') && Key(lower, s)[i] == '.';
    }
    if !NoDot(Key(lower, s)) {
      var i :| 0 <= i < |s| && Key(lower, s)[i] == '.';
      assert Special(lower(s[i]));
    }
  }

  /** One dot, at the start. */
  predicate DotFirst(s: string) {
    s != "" && s[0] == '.' && NoDot(s[1..])
  }

  lemma ExtSnoc(t: string, c: char)
    ensures Ext(t + [c]) == if c == '.' then [c] else if Ext(t) == [] then [] else Ext(t) + [c]
  {
    assert (t + [c])[..|t|] == t;
  }

  lemma DotFirstSnoc(e: string, c: char)
    requires DotFirst(e) && c != '.'
    ensures DotFirst(e + [c])
  {
    assert (e + [c])[1..] == e[1..] + [c];
    NoDotSnoc(e[1..], c);
  }

  ghost predicate Shaped(s: string, e: string) {
    (e == "" <==> NoDot(s)) && (e != "" ==> DotFirst(e))
  }

  lemma ShapedSnoc(s: string, e: string, c: char)
    requires Shaped(s, e)
    ensures Shaped(s + [c], if c == '.' then [c] else if e == [] then [] else e + [c])
  {
    NoDotSnoc(s, c);
    JustDot();
    if c != '.' && e != [] {
      DotFirstSnoc(e, c);
    }
    hide NoDot;
    hide DotFirst;
  }

  lemma {:induction false} ExtShaped(s: string)
    ensures Shaped(s, Ext(s))
  {
    hide Shaped;
    hide Ext;
    if s == [] {
      NothingShaped();
    } else {
      assert s == s[..|s| - 1] + [s[|s| - 1]];
      ExtShaped(s[..|s| - 1]);
      ExtSnoc(s[..|s| - 1], s[|s| - 1]);
      ShapedSnoc(s[..|s| - 1], Ext(s[..|s| - 1]), s[|s| - 1]);
    }
  }

  lemma NothingShaped()
    ensures Shaped([], Ext([]))
  {
  }

  lemma ExtShape(s: string)
    ensures Ext(s) == "" <==> NoDot(s)
    ensures Ext(s) != "" ==> DotFirst(Ext(s))
  {
    ExtShaped(s);
  }

  lemma JustDot()
    ensures DotFirst(".")
  {
  }

  lemma DotFirstKey(lower: char -> char, s: string)
    requires Faithful(lower) && s != ""
    ensures DotFirst(Key(lower, s)) <==> DotFirst(s)
  {
    assert s == [s[0]] + s[1..];
    KeyConcat(lower, [s[0]], s[1..]);
    KeyAt(lower, [s[0]], 0);
    assert Key(lower, s)[1..] == Key(lower, s[1..]) && Key(lower, s)[0] == lower(s[0]);
    NoDotKey(lower, s[1..]);
    assert Special('.');
  }

  lemma InsideNoDot(s: string)
    requires DotFirst(s)
    ensures forall i :: 1 <= i < |s| ==> s[i] != '.'
  {
    forall i | 1 <= i < |s|
      ensures s[i] != '.'
    {
      assert s[1..][i - 1] == s[i];
    }
  }

  lemma LastDotFurther(a: string, u: string, b: string, v: string)
    requires a + u == b + v && DotFirst(u) && DotFirst(v)
    ensures |v| <= |u|
  {
    InsideNoDot(v);
    assert (a + u)[|a|] == '.';
  }

  /** The dot that starts the extension is the last one. */
  lemma LastDot(a: string, u: string, b: string, v: string)
    requires a + u == b + v && DotFirst(u) && DotFirst(v)
    ensures u == v && a == b
  {
    LastDotFurther(a, u, b, v);
    LastDotFurther(b, v, a, u);
    assert a == (a + u)[..|a|] && b == (b + v)[..|b|];
    assert u == (a + u)[|a|..] && v == (b + v)[|b|..];
  }

  lemma SuffixNoDot(n: nat)
    ensures NoDot(Suffix(n)) && Suffix(n)[0] == ' ' && Suffix(n)[1] == '('
  {
    forall i | 0 <= i < |Decimal(n)|
      ensures Decimal(n)[i] != '.'
    {
      DecimalDigits(n, i);
    }
    assert Suffix(n) == " (" + Decimal(n) + ")";
    assert NoDot(" (") && NoDot(")") && NoDot(Decimal(n));
  }

  lemma DotlessCandidate(lower: char -> char, base: string, n: nat)
    requires Faithful(lower) && Ext(base) == ""
    ensures NoDot(Key(lower, Candidate(base, n)))
  {
    ExtShape(base);
    SuffixNoDot(n);
    NoDotConcat(Stem(base), Suffix(n));
    assert Candidate(base, n) == Stem(base) + Suffix(n);
    NoDotKey(lower, Candidate(base, n));
  }

  /** The key of a numbered name that ends in an extension: the parts fall into place. */
  lemma CandidateEnds(lower: char -> char, base: string, n: nat, head: string, key: string)
    requires Faithful(lower) && Key(lower, Candidate(base, n)) == head + key && DotFirst(key)
    ensures Key(lower, Ext(base)) == key && Key(lower, Stem(base)) + Suffix(n) == head
  {
    assert (head + key)[|head|] == '.';
    if Ext(base) == "" {
      DotlessCandidate(lower, base, n);
      assert false;
    } else {
      CandidateKey(lower, base, n);
      ExtShape(base);
      DotFirstKey(lower, Ext(base));
      LastDot(Key(lower, Stem(base)) + Suffix(n), Key(lower, Ext(base)), head, key);
    }
  }

  /** No numbered name is all extension. */
  lemma NumberedNotExtension(lower: char -> char, base: string, n: nat)
    requires Faithful(lower)
    ensures !DotFirst(Key(lower, Candidate(base, n)))
  {
    var key := Key(lower, Candidate(base, n));
    assert "" + key == key;
    if DotFirst(key) {
      CandidateEnds(lower, base, n, "", key);
      assert false;
    }
  }

  lemma NotSpace(lower: char -> char, c: char)
    requires Faithful(lower) && c != ' '
    ensures lower(c) != ' '
  {
    assert Special(' ');
  }

  lemma SuffixInjective(a: nat, b: nat)
    requires Suffix(a) == Suffix(b)
    ensures a == b
  {
    Middle(" (", Decimal(a), Decimal(b), ")");
    DecimalInjective(a, b);
  }

  /** A numbered name like that of a name that is all extension comes from such a name. */
  lemma NumberedTwin(lower: char -> char, base: string, n: nat, a: nat, key: string)
    requires Faithful(lower) && base != "" && base[0] != ' ' && DotFirst(key)
    requires Key(lower, Candidate(base, n)) == Suffix(a) + key
    ensures n == a && Stem(base) == "" && Key(lower, base) == key
  {
    CandidateEnds(lower, base, n, Suffix(a), key);
    SuffixNoDot(a);
    NotSpace(lower, base[0]);
    if Stem(base) != "" {
      KeyAt(lower, Stem(base), 0);
      assert false;
    }
    assert "" + Suffix(n) == Suffix(n);
    SuffixInjective(n, a);
  }

  /** A name like a trimmed twin is not numbered. */
  lemma BareNotNumbered(lower: char -> char, base: string, n: nat, a: nat, key: string)
    requires Faithful(lower) && DotFirst(key)
    ensures Key(lower, Candidate(base, n)) != Suffix(a)[1..] + key
  {
    if Key(lower, Candidate(base, n)) == Suffix(a)[1..] + key {
      CandidateEnds(lower, base, n, Suffix(a)[1..], key);
      var left := Key(lower, Stem(base));
      SuffixNoDot(n);
      assert (left + Suffix(n))[|left|] == ' ';
      BareNoSpace(a, |left|);
      assert false;
    }
  }

  lemma BareNoSpace(a: nat, i: nat)
    requires i < |Suffix(a)[1..]|
    ensures Suffix(a)[1..][i] != ' '
  {
    assert Suffix(a)[1..] == "(" + Decimal(a) + ")";
    if 0 < i <= |Decimal(a)| {
      DecimalDigits(a, i - 1);
    }
  }

  // The chosen names

  /** Names chosen one after another for these bases. */
  ghost predicate Chosen(lower: char -> char, bases: seq<string>, names: seq<string>) {
    |names| == |bases| && forall i :: 0 <= i < |bases| ==> ChosenAt(lower, bases, names, i)
  }

  ghost predicate ChosenAt(lower: char -> char, bases: seq<string>, names: seq<string>, i: nat)
    requires i < |bases| == |names|
  {
    exists attempt: nat :: Picked(lower, bases[i], Keys(lower, names[..i]), names[i], attempt)
  }

  lemma NamedChosen(lower: char -> char, sanitize: string -> string, files: seq<Path>, names: seq<string>)
    requires Named(lower, sanitize, files, names) && forall i :: 0 <= i < |files| ==> files[i].File?
    ensures Chosen(lower, Bases(sanitize, files), names)
  {
    hide Picked;
    var bases := Bases(sanitize, files);
    forall i | 0 <= i < |bases|
      ensures ChosenAt(lower, bases, names, i)
    {
      assert NamedAt(lower, sanitize, files, names, i);
    }
  }

  /** Bases are not empty and start with no space. */
  predicate Neat(bases: seq<string>) {
    forall i :: 0 <= i < |bases| ==> bases[i] != "" && bases[i][0] != ' '
  }

  /** The names before this one that have its key, and this one. */
  function Rank(lower: char -> char, bases: seq<string>, i: nat): nat
    requires i < |bases|
  {
    Count(lower, bases[..i], Key(lower, bases[i])) + 1
  }

  lemma {:induction false} CountRises(lower: char -> char, bases: seq<string>, key: string, a: nat, b: nat)
    requires a <= b <= |bases|
    ensures Count(lower, bases[..a], key) <= Count(lower, bases[..b], key)
    ensures a < b && Key(lower, bases[a]) == key ==> Count(lower, bases[..a], key) < Count(lower, bases[..b], key)
    decreases b
  {
    if a < b {
      CountRises(lower, bases, key, a, b - 1);
      assert bases[..b][..b - 1] == bases[..b - 1];
    }
  }

  /** Every rank up to the count is somebody's. */
  lemma {:induction false} RankReached(lower: char -> char, bases: seq<string>, key: string, r: nat, end: nat)
    returns (i: nat)
    requires end <= |bases| && 1 <= r <= Count(lower, bases[..end], key)
    ensures i < end && Key(lower, bases[i]) == key && Rank(lower, bases, i) == r
    decreases end
  {
    assert bases[..end][..end - 1] == bases[..end - 1];
    if r <= Count(lower, bases[..end - 1], key) {
      i := RankReached(lower, bases, key, r, end - 1);
    } else {
      i := end - 1;
    }
  }

  lemma InKeys(lower: char -> char, names: seq<string>, i: nat, end: nat)
    requires i < end <= |names|
    ensures Key(lower, names[i]) in Keys(lower, names[..end])
  {
    assert names[..end][i] == names[i];
  }

  lemma KeysFrom(lower: char -> char, names: seq<string>, end: nat, key: string) returns (i: nat)
    requires end <= |names| && key in Keys(lower, names[..end])
    ensures i < end && Key(lower, names[i]) == key
  {
    i :| 0 <= i < end && Key(lower, names[..end][i]) == key;
  }

  /** The key of the n-th name for a base with this all-extension key. */
  function TwinKey(key: string, n: nat): string {
    if n >= 2 then Suffix(n) + key else key
  }

  lemma TwinKeyInjective(key: string, a: nat, b: nat)
    requires a >= 1 && b >= 1 && TwinKey(key, a) == TwinKey(key, b)
    ensures a == b
  {
    assert |TwinKey(key, a)| == |TwinKey(key, b)|;
    if a >= 2 && b >= 2 {
      assert "" + Suffix(a) + key == Suffix(a) + key && "" + Suffix(b) + key == Suffix(b) + key;
      Middle("", Suffix(a), Suffix(b), key);
      SuffixInjective(a, b);
    }
  }

  lemma NoStem(base: string)
    requires base != ""
    ensures AllExtension(base) <==> Stem(base) == ""
    ensures AllExtension(base) <==> DotFirst(base)
  {
    ExtShape(base);
    if DotFirst(base) {
      var e := Ext(base);
      assert Stem(base) + e == base && [] + base == base;
      LastDot(Stem(base), e, [], base);
    }
  }

  lemma ExtensionKey(lower: char -> char, base: string)
    requires Faithful(lower) && base != ""
    ensures AllExtension(base) <==> DotFirst(Key(lower, base))
  {
    NoStem(base);
    DotFirstKey(lower, base);
  }

  lemma NameKey(lower: char -> char, base: string, n: nat)
    requires Faithful(lower) && AllExtension(base)
    ensures Key(lower, NameAt(base, n)) == TwinKey(Key(lower, base), n)
  {
    NoStem(base);
    if n >= 2 {
      CandidateKey(lower, base, n);
      assert [] + Suffix(n) == Suffix(n);
    }
  }

  /** A name with a twin's key is that twin. */
  lemma TwinIs(lower: char -> char, base: string, n: nat, a: nat, key: string)
    requires Faithful(lower) && base != "" && base[0] != ' ' && DotFirst(key) && n >= 1 && a >= 1
    requires Key(lower, NameAt(base, n)) == TwinKey(key, a)
    ensures n == a && Key(lower, base) == key && AllExtension(base)
  {
    ExtensionKey(lower, base);
    if n >= 2 {
      if a >= 2 {
        NumberedTwin(lower, base, n, a, key);
        NoStem(base);
      } else {
        NumberedNotExtension(lower, base, n);
      }
    } else if a >= 2 {
      SuffixNoDot(a);
      NotSpace(lower, base[0]);
      KeyAt(lower, base, 0);
      assert false;
    }
  }

  /** The chosen attempt, said evenly: the first whose name is free. */
  lemma PickedFirstFree(lower: char -> char, base: string, used: set<string>, name: string, attempt: nat)
    requires Picked(lower, base, used, name, attempt)
    ensures attempt >= 1 && name == NameAt(base, attempt) && Key(lower, name) !in used
    ensures forall a: nat :: 1 <= a < attempt ==> Key(lower, NameAt(base, a)) in used
  {
    hide Key;
    hide Candidate;
    forall a: nat | 1 <= a < attempt
      ensures Key(lower, NameAt(base, a)) in used
    {
      if a >= 2 {
        assert Key(lower, Candidate(base, a)) in used;
      }
    }
  }

  lemma ChosenShape(lower: char -> char, bases: seq<string>, names: seq<string>, i: nat) returns (attempt: nat)
    requires Chosen(lower, bases, names) && i < |bases|
    ensures attempt >= 1 && names[i] == NameAt(bases[i], attempt)
    ensures Key(lower, names[i]) !in Keys(lower, names[..i])
    ensures forall a: nat :: 1 <= a < attempt ==> Key(lower, NameAt(bases[i], a)) in Keys(lower, names[..i])
  {
    hide Picked;
    assert ChosenAt(lower, bases, names, i);
    attempt :| Picked(lower, bases[i], Keys(lower, names[..i]), names[i], attempt);
    PickedFirstFree(lower, bases[i], Keys(lower, names[..i]), names[i], attempt);
  }

  /** A file whose name is all extension gets the number of files so far with its key. */
  lemma {:induction false} AttemptIsRank(lower: char -> char, bases: seq<string>, names: seq<string>, i: nat)
    requires Faithful(lower) && Neat(bases) && Chosen(lower, bases, names)
    requires i < |bases| && AllExtension(bases[i])
    ensures names[i] == NameAt(bases[i], Rank(lower, bases, i))
    decreases i
  {
    hide Key;
    hide Keys;
    hide Chosen;
    hide Rank;
    hide Ext;
    hide NameAt;
    hide TwinKey;
    var key := Key(lower, bases[i]);
    ExtensionKey(lower, bases[i]);
    var attempt := ChosenShape(lower, bases, names, i);
    NameKey(lower, bases[i], attempt);
    var rank := Rank(lower, bases, i);
    if attempt < rank {
      TakenBefore(lower, bases, names, i, attempt);
    } else if rank < attempt {
      NameKey(lower, bases[i], rank);
      RankFree(lower, bases, names, i);
    }
  }

  lemma TakenBefore(lower: char -> char, bases: seq<string>, names: seq<string>, i: nat, a: nat)
    requires Faithful(lower) && Neat(bases) && Chosen(lower, bases, names)
    requires i < |bases| && AllExtension(bases[i]) && 1 <= a < Rank(lower, bases, i)
    ensures TwinKey(Key(lower, bases[i]), a) in Keys(lower, names[..i])
    decreases i, 0
  {
    hide Key;
    hide Keys;
    hide Ext;
    hide NameAt;
    hide TwinKey;
    ExtensionKey(lower, bases[i]);
    var j := RankReached(lower, bases, Key(lower, bases[i]), a, i);
    ExtensionKey(lower, bases[j]);
    AttemptIsRank(lower, bases, names, j);
    NameKey(lower, bases[j], a);
    InKeys(lower, names, j, i);
  }

  lemma RankFree(lower: char -> char, bases: seq<string>, names: seq<string>, i: nat)
    requires Faithful(lower) && Neat(bases) && Chosen(lower, bases, names)
    requires i < |bases| && AllExtension(bases[i])
    ensures Rank(lower, bases, i) >= 1
    ensures TwinKey(Key(lower, bases[i]), Rank(lower, bases, i)) !in Keys(lower, names[..i])
    decreases i, 0
  {
    hide Key;
    hide Keys;
    hide Ext;
    hide NameAt;
    hide TwinKey;
    hide Count;
    var key, rank := Key(lower, bases[i]), Rank(lower, bases, i);
    ExtensionKey(lower, bases[i]);
    if TwinKey(key, rank) in Keys(lower, names[..i]) {
      var j := KeysFrom(lower, names, i, TwinKey(key, rank));
      var attempt := ChosenShape(lower, bases, names, j);
      TwinIs(lower, bases[j], attempt, rank, key);
      AttemptIsRank(lower, bases, names, j);
      NameKey(lower, bases[j], attempt);
      NameKey(lower, bases[j], Rank(lower, bases, j));
      TwinKeyInjective(key, attempt, Rank(lower, bases, j));
      CountRises(lower, bases, key, j, i);
      assert false;
    }
  }

  // Acceptance

  /** The names after the receiver's sanitizer. */
  lemma ReceivedAt(lower: char -> char, sanitize: string -> string, bases: seq<string>, names: seq<string>, i: nat)
    returns (attempt: nat)
    requires Chosen(lower, bases, names) && i < |bases| && Tidy(sanitize, bases[i])
    ensures attempt >= 1 && names[i] == NameAt(bases[i], attempt)
    ensures sanitize(names[i]) == Received(bases[i], attempt) != ""
  {
    attempt := ChosenShape(lower, bases, names, i);
    if attempt >= 2 {
      SuffixNoDot(attempt);
    }
  }

  ghost predicate AllTidy(sanitize: string -> string, bases: seq<string>) {
    forall i :: 0 <= i < |bases| ==> Tidy(sanitize, bases[i])
  }

  lemma SuffixTail(n: nat)
    ensures |Suffix(n)| >= 1 && Suffix(n)[1..] == "(" + Decimal(n) + ")"
  {
    assert " (" == [' '] + "(";
  }

  lemma BareKey(lower: char -> char, base: string, n: nat)
    requires Faithful(lower)
    ensures Key(lower, Bare(base, n)) == Suffix(n)[1..] + Key(lower, base)
  {
    SuffixPlain(n);
    SuffixTail(n);
    hide Suffix;
    hide Decimal;
    hide Key;
    KeyConcat(lower, Suffix(n)[1..], base);
    KeyPlain(lower, Suffix(n)[1..]);
  }

  lemma Trimmed(base: string, n: nat)
    requires Stem(base) == "" && n >= 2
    ensures Received(base, n) == Bare(base, n) && NameAt(base, n) == [' '] + Bare(base, n)
  {
    assert " (" == [' '] + "(";
    assert Candidate(base, n) == [' '] + Bare(base, n);
  }

  lemma SpaceKey(lower: char -> char, s: string)
    requires Faithful(lower)
    ensures Key(lower, [' '] + s) == [' '] + Key(lower, s)
  {
    KeyConcat(lower, [' '], s);
    KeyPlain(lower, [' ']);
  }

  /** Two received names alike where the offered ones are not: one lost its space, the
      other is a file's own name. */
  lemma AlikeMeansClash(lower: char -> char, bases: seq<string>, names: seq<string>, x: nat, y: nat, a: nat, b: nat)
    requires Faithful(lower) && Neat(bases) && Chosen(lower, bases, names) && x < |bases| && y < |bases|
    requires a >= 1 && b >= 1 && names[x] == NameAt(bases[x], a) && names[y] == NameAt(bases[y], b)
    requires a >= 2 && Stem(bases[x]) == "" && !(b >= 2 && Stem(bases[y]) == "")
    requires Key(lower, Received(bases[x], a)) == Key(lower, Received(bases[y], b))
    ensures Clash(lower, bases)
  {
    hide Ext;
    hide Key;
    var key := Key(lower, bases[x]);
    NoStem(bases[x]);
    ExtensionKey(lower, bases[x]);
    Trimmed(bases[x], a);
    BareKey(lower, bases[x], a);
    if b >= 2 {
      BareNotNumbered(lower, bases[y], b, a, key);
    }
    AttemptIsRank(lower, bases, names, x);
    NameKey(lower, bases[x], a);
    NameKey(lower, bases[x], Rank(lower, bases, x));
    TwinKeyInjective(key, a, Rank(lower, bases, x));
    CountRises(lower, bases, key, x, |bases|);
    assert bases[..|bases|] == bases;
    assert ClashAt(lower, bases, x, y, a);
  }

  lemma NotAcceptedMeansClash(lower: char -> char, sanitize: string -> string, bases: seq<string>, names: seq<string>)
    requires Faithful(lower) && Neat(bases) && Chosen(lower, bases, names) && AllTidy(sanitize, bases)
    requires Distinct(lower, names) && !Acceptable(lower, sanitize, names)
    ensures Clash(lower, bases)
  {
    hide Ext;
    hide Key;
    hide Clash;
    hide Stem;
    forall i | 0 <= i < |names|
      ensures sanitize(names[i]) != ""
    {
      var _ := ReceivedAt(lower, sanitize, bases, names, i);
    }
    var clean := Sanitized(sanitize, names);
    var x, y :| 0 <= x < y < |names| && Key(lower, clean[x]) == Key(lower, clean[y]);
    var a := ReceivedAt(lower, sanitize, bases, names, x);
    var b := ReceivedAt(lower, sanitize, bases, names, y);
    var p, q := a >= 2 && Stem(bases[x]) == "", b >= 2 && Stem(bases[y]) == "";
    if p && q {
      Trimmed(bases[x], a);
      Trimmed(bases[y], b);
      SpaceKey(lower, Bare(bases[x], a));
      SpaceKey(lower, Bare(bases[y], b));
      assert false;
    } else if p {
      AlikeMeansClash(lower, bases, names, x, y, a, b);
    } else if q {
      AlikeMeansClash(lower, bases, names, y, x, b, a);
    } else {
      assert false;
    }
  }

  /** A key that some base has is the key of some name. */
  lemma KeyTaken(lower: char -> char, bases: seq<string>, names: seq<string>, m: nat) returns (y: nat)
    requires Chosen(lower, bases, names) && m < |bases|
    ensures y < |names| && Key(lower, names[y]) == Key(lower, bases[m])
  {
    hide Key;
    hide Keys;
    var attempt := ChosenShape(lower, bases, names, m);
    y := m;
    if attempt >= 2 {
      assert NameAt(bases[m], 1) == bases[m];
      y := KeysFrom(lower, names, m, Key(lower, bases[m]));
    }
  }

  lemma ClashMeansNotAccepted(lower: char -> char, sanitize: string -> string, bases: seq<string>,
                              names: seq<string>, i: nat, m: nat, n: nat)
    requires Faithful(lower) && Neat(bases) && Chosen(lower, bases, names) && AllTidy(sanitize, bases)
    requires i < |bases| && m < |bases| && ClashAt(lower, bases, i, m, n)
    ensures !Acceptable(lower, sanitize, names)
  {
    hide Ext;
    hide Key;
    hide Count;
    var key := Key(lower, bases[i]);
    ExtensionKey(lower, bases[i]);
    assert bases[..|bases|] == bases;
    var x := RankReached(lower, bases, key, n, |bases|);
    ExtensionKey(lower, bases[x]);
    NoStem(bases[x]);
    AttemptIsRank(lower, bases, names, x);
    Trimmed(bases[x], n);
    BareKey(lower, bases[x], n);
    BareKey(lower, bases[i], n);
    assert sanitize(NameAt(bases[x], n)) == Received(bases[x], n);
    var y := KeyTaken(lower, bases, names, m);
    KeepsKey(lower, sanitize, bases, names, y, n, key);
    assert x != y by {
      SpaceKey(lower, Bare(bases[x], n));
      SuffixNoDot(n);
    }
    var clean := Sanitized(sanitize, names);
    assert Key(lower, clean[x]) == Key(lower, clean[y]);
  }

  /** A name whose key starts with a parenthesis loses nothing. */
  lemma KeepsKey(lower: char -> char, sanitize: string -> string, bases: seq<string>, names: seq<string>,
                 y: nat, n: nat, key: string)
    requires Faithful(lower) && Chosen(lower, bases, names) && AllTidy(sanitize, bases) && y < |names|
    requires Key(lower, names[y]) == Suffix(n)[1..] + key
    ensures sanitize(names[y]) == names[y]
  {
    hide Ext;
    hide Key;
    hide Stem;
    var b := ReceivedAt(lower, sanitize, bases, names, y);
    SuffixNoDot(n);
    assert (Suffix(n)[1..] + key)[0] == '(';
    if b >= 2 && Stem(bases[y]) == "" {
      Trimmed(bases[y], b);
      SpaceKey(lower, Bare(bases[y], b));
      assert false;
    }
  }

  lemma TidyIsNeat(sanitize: string -> string, bases: seq<string>)
    requires AllTidy(sanitize, bases)
    ensures Neat(bases)
  {
    forall i | 0 <= i < |bases|
      ensures bases[i] != "" && bases[i][0] != ' '
    {
      assert Tidy(sanitize, bases[i]);
    }
  }

  /** Exactly which offers are accepted by the program that builds them, in terms of the
      chosen files: all but those in which n or more files share a name that is all
      extension and another file is called "(n)" followed by that name. */
  lemma AcceptedIff(lower: char -> char, sanitize: string -> string, files: seq<Path>,
                    names: seq<string>, sizes: seq<U64>, total: U64)
    requires Faithful(lower) && Offers(lower, sanitize, files, names, sizes, total)
    requires AllTidy(sanitize, Bases(sanitize, files))
    ensures Acceptable(lower, sanitize, names) <==> !Clash(lower, Bases(sanitize, files))
  {
    var bases := Bases(sanitize, files);
    NamedChosen(lower, sanitize, files, names);
    TidyIsNeat(sanitize, bases);
    hide Acceptable;
    hide Distinct;
    hide Named;
    hide AllTidy;
    if !Acceptable(lower, sanitize, names) {
      NotAcceptedMeansClash(lower, sanitize, bases, names);
    }
    if Clash(lower, bases) {
      var i: nat, m: nat, n: nat :| i < |bases| && m < |bases| && ClashAt(lower, bases, i, m, n);
      ClashMeansNotAccepted(lower, sanitize, bases, names, i, m, n);
    }
  }

  /** An offer, and the same program at the other end. */
  method Exchange(lower: char -> char, sanitize: string -> string, paths: seq<Path>)
    returns (names: seq<string>, accepted: Option<seq<string>>)
    requires Faithful(lower) && AllTidy(sanitize, Bases(sanitize, FilesOf(paths)))
    ensures Named(lower, sanitize, FilesOf(paths), names)
    ensures accepted.Some? <==> !Clash(lower, Bases(sanitize, FilesOf(paths)))
    ensures accepted.Some? ==> accepted.value == Sanitized(sanitize, names)
  {
    var sizes, total;
    names, sizes, total := BuildOffer(lower, sanitize, paths);
    AcceptedIff(lower, sanitize, FilesOf(paths), names, sizes, total);
    accepted := Normalize(lower, sanitize, names);
  }

  // Offers that arrive unchanged

  /** A later file shares its key with a file whose name is all extension. */
  ghost predicate Repeated(lower: char -> char, bases: seq<string>) {
    exists i: nat, j: nat :: i < j < |bases| && AllExtension(bases[j]) && Key(lower, bases[i]) == Key(lower, bases[j])
  }

  lemma RankOne(lower: char -> char, bases: seq<string>, i: nat, j: nat)
    requires i < j < |bases| && Key(lower, bases[i]) == Key(lower, bases[j])
    ensures Rank(lower, bases, j) >= 2
  {
    CountRises(lower, bases, Key(lower, bases[j]), i, j);
  }

  lemma ChangedMeansRepeated(lower: char -> char, bases: seq<string>, names: seq<string>, j: nat, attempt: nat)
    requires Faithful(lower) && Neat(bases) && Chosen(lower, bases, names) && j < |bases|
    requires attempt >= 2 && Stem(bases[j]) == "" && names[j] == NameAt(bases[j], attempt)
    ensures Repeated(lower, bases)
  {
    hide Ext;
    hide Key;
    hide Chosen;
    NoStem(bases[j]);
    ExtensionKey(lower, bases[j]);
    AttemptIsRank(lower, bases, names, j);
    NameKey(lower, bases[j], attempt);
    NameKey(lower, bases[j], Rank(lower, bases, j));
    TwinKeyInjective(Key(lower, bases[j]), attempt, Rank(lower, bases, j));
    var i := RankReached(lower, bases, Key(lower, bases[j]), 1, j);
  }

  lemma RepeatedMeansChanged(lower: char -> char, sanitize: string -> string, bases: seq<string>,
                             names: seq<string>, i: nat, j: nat)
    requires Faithful(lower) && Neat(bases) && Chosen(lower, bases, names) && AllTidy(sanitize, bases)
    requires i < j < |bases| && AllExtension(bases[j]) && Key(lower, bases[i]) == Key(lower, bases[j])
    ensures Sanitized(sanitize, names) != names
  {
    hide Ext;
    hide Key;
    NoStem(bases[j]);
    RankOne(lower, bases, i, j);
    AttemptIsRank(lower, bases, names, j);
    Trimmed(bases[j], Rank(lower, bases, j));
    assert sanitize(NameAt(bases[j], Rank(lower, bases, j))) == Received(bases[j], Rank(lower, bases, j));
    assert Sanitized(sanitize, names)[j] != names[j];
  }

  /** The receiver changes no name of an offer, and then accepts it, if and only if no
      name that is all extension comes after a file with the same key. */
  lemma UnchangedNamesAccepted(lower: char -> char, sanitize: string -> string, files: seq<Path>,
                               names: seq<string>, sizes: seq<U64>, total: U64)
    requires Faithful(lower) && Offers(lower, sanitize, files, names, sizes, total)
    requires AllTidy(sanitize, Bases(sanitize, files))
    ensures Sanitized(sanitize, names) == names <==> !Repeated(lower, Bases(sanitize, files))
    ensures Sanitized(sanitize, names) == names ==> Acceptable(lower, sanitize, names)
  {
    var bases := Bases(sanitize, files);
    NamedChosen(lower, sanitize, files, names);
    TidyIsNeat(sanitize, bases);
    hide Distinct;
    hide Named;
    hide Key;
    hide Stem;
    hide Repeated;
    forall i | 0 <= i < |names|
      ensures sanitize(names[i]) != "" && (sanitize(names[i]) != names[i] ==> Repeated(lower, bases))
    {
      var attempt := ReceivedAt(lower, sanitize, bases, names, i);
      if attempt >= 2 && Stem(bases[i]) == "" {
        ChangedMeansRepeated(lower, bases, names, i, attempt);
      }
    }
    if Repeated(lower, bases) {
      RepeatedChanges(lower, sanitize, bases, names);
    }
  }

  lemma RepeatedChanges(lower: char -> char, sanitize: string -> string, bases: seq<string>, names: seq<string>)
    requires Faithful(lower) && Neat(bases) && Chosen(lower, bases, names) && AllTidy(sanitize, bases)
    requires Repeated(lower, bases)
    ensures Sanitized(sanitize, names) != names
  {
    var i: nat, j: nat :| i < j < |bases| && AllExtension(bases[j]) && Key(lower, bases[i]) == Key(lower, bases[j]);
    RepeatedMeansChanged(lower, sanitize, bases, names, i, j);
  }

  // The sanitizer on ordinary names

  /** unicode.IsSpace. */
  predicate Space(c: char) {
    || '\t' <= c <= '\r' || c == ' ' || c == '\U{0085}' || c == '\U{00A0}' || c == '\U{1680}'
    || '\U{2000}' <= c <= '\U{200A}' || c in "\U{2028}\U{2029}\U{202F}\U{205F}\U{3000}"
  }

  function TrimLeft(s: string): string {
    if s != [] && Space(s[0]) then TrimLeft(s[1..]) else s
  }

  function TrimRight(s: string): string {
    if s != [] && Space(s[|s| - 1]) then TrimRight(s[..|s| - 1]) else s
  }

  function Slashed(s: string): (r: string)
    ensures |r| == |s|
  {
    seq(|s|, i requires 0 <= i < |s| => if s[i] == '/' then '\\' else s[i])
  }

  /** sanitizeTransferName; `fileBase` is the platform's filepath.Base. */
  function SanitizeTransferName(fileBase: string -> string, name: string): string {
    var trimmed := TrimRight(TrimLeft(name));
    if trimmed == "" then ""
    else
      var base := fileBase(Slashed(trimmed));
      if base == "" || base == "." || base == ".." then "" else base
  }

  function Sanitizer(fileBase: string -> string): string -> string {
    (name: string) => SanitizeTransferName(fileBase, name)
  }

  /** No separator and no colon, as in every name of a file. */
  predicate OneElement(s: string) {
    forall i :: 0 <= i < |s| ==> s[i] != '/' && s[i] != '\\' && s[i] != ':'
  }

  ghost predicate BaseOfElement(fileBase: string -> string) {
    forall s :: s != "" && OneElement(s) ==> fileBase(s) == s
  }

  predicate Bounded(s: string) {
    s != "" ==> !Space(s[0]) && !Space(s[|s| - 1])
  }

  predicate Clean(s: string) {
    s != "" && s != "." && s != ".." && OneElement(s) && Bounded(s)
  }

  lemma {:induction false} LeftTrimmed(s: string)
    ensures var t := TrimLeft(s); (t != "" ==> !Space(t[0])) && (OneElement(s) ==> OneElement(t))
  {
    if s != [] && Space(s[0]) {
      LeftTrimmed(s[1..]);
    }
  }

  lemma {:induction false} RightTrimmed(s: string)
    ensures var t := TrimRight(s); (t != "" ==> !Space(t[|t| - 1])) && t <= s
  {
    if s != [] && Space(s[|s| - 1]) {
      RightTrimmed(s[..|s| - 1]);
    }
  }

  lemma SanitizedIsClean(fileBase: string -> string, name: string)
    requires BaseOfElement(fileBase) && OneElement(name)
    ensures Clean(Base(SanitizeTransferName(fileBase, name)))
  {
    LeftTrimmed(name);
    RightTrimmed(TrimLeft(name));
    var trimmed := TrimRight(TrimLeft(name));
    assert trimmed != "" ==> trimmed[0] == TrimLeft(name)[0];
    assert OneElement(trimmed);
    assert Slashed(trimmed) == trimmed;
    assert Clean("file");
  }

  lemma CleanStays(fileBase: string -> string, s: string)
    requires BaseOfElement(fileBase) && Clean(s)
    ensures SanitizeTransferName(fileBase, s) == SanitizeTransferName(fileBase, [' '] + s) == s
  {
    assert Slashed(s) == s;
    assert ([' '] + s)[1..] == s;
    assert TrimLeft([' '] + s) == TrimLeft(s) == s;
  }

  lemma SuffixElement(n: nat)
    ensures OneElement(Suffix(n)) && |Suffix(n)| >= 3 && Suffix(n)[|Suffix(n)| - 1] == ')' && Suffix(n)[1] == '('
  {
    DecimalPlain(n);
    SuffixPlain(n);
  }

  lemma JoinClean(m: string, e: string)
    requires OneElement(m) && OneElement(e) && |m| >= 3 && !Space(m[0]) && !Space(m[|m| - 1])
    requires e != "" ==> !Space(e[|e| - 1])
    ensures Clean(m + e)
  {
    var s := m + e;
    assert s[0] == m[0] && (e != "" ==> s[|s| - 1] == e[|e| - 1]);
    assert OneElement(s);
  }

  lemma SplitElement(stem: string, ext: string)
    requires OneElement(stem + ext) && Bounded(stem + ext)
    ensures OneElement(stem) && OneElement(ext)
    ensures (stem != "" ==> !Space(stem[0])) && (ext != "" ==> !Space(ext[|ext| - 1]))
  {
    hide Space;
    var s := stem + ext;
    assert stem == s[..|stem|] && ext == s[|stem|..];
  }

  lemma Parts(base: string)
    requires OneElement(base) && Bounded(base)
    ensures var stem, ext := Stem(base), Ext(base);
            && OneElement(stem) && OneElement(ext)
            && (stem != "" ==> !Space(stem[0])) && (ext != "" ==> !Space(ext[|ext| - 1]))
  {
    hide Space;
    hide OneElement;
    assert base == Stem(base) + Ext(base);
    hide Ext;
    hide Bounded;
    SplitElement(Stem(base), Ext(base));
  }

  lemma Parens()
    ensures !Space('(') && !Space(')')
  {
  }

  lemma CandidateClean(base: string, n: nat)
    requires Clean(base) && n >= 2
    ensures Stem(base) != "" ==> Clean(Candidate(base, n))
    ensures Stem(base) == "" ==> Clean(Bare(base, n))
  {
    Parts(base);
    Parens();
    SuffixElement(n);
    assert Stem(base) == "" ==> Ext(base) == base;
    hide Space;
    hide Ext;
    hide Stem;
    hide Clean;
    hide Decimal;
    hide OneElement;
    hide Suffix;
    hide Candidate;
    hide Bare;
    if Stem(base) == "" {
      BareClean(base, n);
    } else {
      NumberedClean(Stem(base), Suffix(n), Ext(base));
      CandidateIs(base, n);
    }
  }

  lemma BareClean(base: string, n: nat)
    requires OneElement(base) && (base != "" ==> !Space(base[|base| - 1]))
    ensures Clean(Bare(base, n))
  {
    Parens();
    SuffixElement(n);
    SuffixTail(n);
    assert OneElement(Suffix(n)[1..]);
    hide Space;
    hide Clean;
    hide Decimal;
    hide OneElement;
    JoinClean(Suffix(n)[1..], base);
  }

  lemma NumberedClean(stem: string, suffix: string, ext: string)
    requires stem != "" && |suffix| >= 3 && OneElement(stem) && OneElement(suffix) && OneElement(ext)
    requires !Space(stem[0]) && !Space(suffix[|suffix| - 1]) && (ext != "" ==> !Space(ext[|ext| - 1]))
    ensures Clean((stem + suffix) + ext)
  {
    hide Space;
    hide Clean;
    Appended(stem, suffix);
    JoinClean(stem + suffix, ext);
  }

  lemma CandidateIs(base: string, n: nat)
    ensures Candidate(base, n) == (Stem(base) + Suffix(n)) + Ext(base)
  {
  }

  lemma Appended(a: string, b: string)
    requires a != "" && b != ""
    ensures (a + b)[0] == a[0] && (a + b)[|a + b| - 1] == b[|b| - 1]
    ensures OneElement(a) && OneElement(b) ==> OneElement(a + b)
  {
  }

  /** A real name is one that sanitizing keeps in order. */
  lemma CleanIsTidy(fileBase: string -> string, base: string)
    requires BaseOfElement(fileBase) && Clean(base)
    ensures Tidy(Sanitizer(fileBase), base)
  {
    assert Space(' ');
    forall attempt: nat
      ensures Sanitizer(fileBase)(NameAt(base, attempt)) == Received(base, attempt)
    {
      if attempt >= 2 {
        CandidateClean(base, attempt);
        if Stem(base) == "" {
          Trimmed(base, attempt);
          CleanStays(fileBase, Bare(base, attempt));
        } else {
          CleanStays(fileBase, Candidate(base, attempt));
        }
      } else {
        CleanStays(fileBase, base);
      }
    }
  }

  /** For names of files, sanitizeTransferName is as AcceptedIff asks. */
  lemma FilesAreTidy(fileBase: string -> string, files: seq<Path>)
    requires BaseOfElement(fileBase)
    requires forall i :: 0 <= i < |files| ==> files[i].File? && OneElement(files[i].base)
    ensures AllTidy(Sanitizer(fileBase), Bases(Sanitizer(fileBase), files))
  {
    var bases := Bases(Sanitizer(fileBase), files);
    forall i | 0 <= i < |bases|
      ensures Tidy(Sanitizer(fileBase), bases[i])
    {
      SanitizedIsClean(fileBase, files[i].base);
      CleanIsTidy(fileBase, bases[i]);
    }
  }

  /** The failing offers exist: two files with one clean name that is all extension, and a
      third called "(2)" and that name, make an offer that is refused at the other end. */
  lemma TrimmedTwin(lower: char -> char, fileBase: string -> string, e: string, a: U64, b: U64, c: U64,
                    names: seq<string>, sizes: seq<U64>, total: U64)
    requires Faithful(lower) && BaseOfElement(fileBase) && Clean(e) && AllExtension(e)
    requires Offers(lower, Sanitizer(fileBase), [File(e, a), File(e, b), File(Bare(e, 2), c)], names, sizes, total)
    ensures names[..2] == [e, " (2)" + e] && !Acceptable(lower, Sanitizer(fileBase), names)
  {
    var files := [File(e, a), File(e, b), File(Bare(e, 2), c)];
    var sanitize, bases := Sanitizer(fileBase), [e, e, Bare(e, 2)];
    TwinsCome(fileBase, e, files);
    hide Sanitizer;
    hide Offers;
    hide Ext;
    hide Key;
    AcceptedIff(lower, sanitize, files, names, sizes, total);
    TwoOfThree(lower, e, Bare(e, 2));
    assert ClashAt(lower, bases, 0, 2, 2);
    NamedChosen(lower, sanitize, files, names);
    TidyIsNeat(sanitize, bases);
    TwinNames(lower, e, names);
  }

  lemma TwinNames(lower: char -> char, e: string, names: seq<string>)
    requires Faithful(lower) && AllExtension(e)
    requires Neat([e, e, Bare(e, 2)]) && Chosen(lower, [e, e, Bare(e, 2)], names)
    ensures |names| == 3 && names[..2] == [e, " (2)" + e]
  {
    hide Ext;
    hide Key;
    hide Chosen;
    hide Neat;
    hide Faithful;
    var bases := [e, e, Bare(e, 2)];
    TwoOfThree(lower, e, Bare(e, 2));
    AttemptIsRank(lower, bases, names, 0);
    AttemptIsRank(lower, bases, names, 1);
    SecondName(e);
    ChosenLength(lower, bases, names);
  }

  lemma ChosenLength(lower: char -> char, bases: seq<string>, names: seq<string>)
    requires Chosen(lower, bases, names)
    ensures |names| == |bases|
  {
  }

  lemma SecondName(e: string)
    requires AllExtension(e)
    ensures NameAt(e, 1) == e && NameAt(e, 2) == " (2)" + e
  {
    NoStem(e);
    hide Ext;
    CandidateIs(e, 2);
    assert Decimal(2) == "2";
    assert Suffix(2) == " (2)";
    assert [] + Suffix(2) == Suffix(2);
  }

  predicate TwinFiles(e: string, files: seq<Path>) {
    && |files| == 3 && files[0].File? && files[1].File? && files[2].File?
    && files[0].base == e && files[1].base == e && files[2].base == Bare(e, 2)
  }

  /** The sanitizer leaves these three alone. */
  ghost predicate ThreeStay(sanitize: string -> string, e: string, files: seq<Path>) {
    && (forall i :: 0 <= i < |files| ==> files[i].File?)
    && Bases(sanitize, files) == [e, e, Bare(e, 2)] && AllTidy(sanitize, Bases(sanitize, files))
  }

  lemma TwinsStay(fileBase: string -> string, e: string)
    requires BaseOfElement(fileBase) && Clean(e) && Stem(e) == ""
    ensures var s := Sanitizer(fileBase); s(e) == e && s(Bare(e, 2)) == Bare(e, 2) && Bare(e, 2) != ""
    ensures OneElement(e) && OneElement(Bare(e, 2))
  {
    hide Space;
    CandidateClean(e, 2);
    CleanStays(fileBase, e);
    CleanStays(fileBase, Bare(e, 2));
  }

  lemma TwinsCome(fileBase: string -> string, e: string, files: seq<Path>)
    requires BaseOfElement(fileBase) && Clean(e) && AllExtension(e) && TwinFiles(e, files)
    ensures ThreeStay(Sanitizer(fileBase), e, files)
  {
    hide Space;
    hide Clean;
    NoStem(e);
    TwinsStay(fileBase, e);
    hide Ext;
    hide Sanitizer;
    hide BaseOfElement;
    ThreeBases(Sanitizer(fileBase), e, files);
    FilesAreTidy(fileBase, files);
  }

  lemma ThreeBases(sanitize: string -> string, e: string, files: seq<Path>)
    requires TwinFiles(e, files) && e != "" && Bare(e, 2) != "" && sanitize(e) == e && sanitize(Bare(e, 2)) == Bare(e, 2)
    requires OneElement(e) && OneElement(Bare(e, 2))
    ensures forall i :: 0 <= i < |files| ==> files[i].File? && OneElement(files[i].base)
    ensures Bases(sanitize, files) == [e, e, Bare(e, 2)]
  {
    hide Bare;
    hide OneElement;
  }

  lemma TwoOfThree(lower: char -> char, e: string, other: string)
    ensures Count(lower, [e, e, other], Key(lower, e)) >= 2
    ensures Rank(lower, [e, e, other], 0) == 1 && Rank(lower, [e, e, other], 1) == 2
  {
    assert [e, e, other][..0] == [] && [e, e, other][..1] == [e] && [e, e, other][..2] == [e, e];
    assert [e, e][..1] == [e] && [e][..0] == [];
    assert Count(lower, [e], Key(lower, e)) == 1 && Count(lower, [e, e], Key(lower, e)) == 2;
  }
}
