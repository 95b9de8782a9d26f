/**
 * The build variants of the build scripts: the IDE platforms, the bunches built
 * on them, and the predicates a build script uses to say "only for these bunches".
 * Every version number and kind is derived from the enum constant's name, as the
 * build script does.
 */
module Bunches {
  import opened Wrappers

  // ---------------------------------------------------------------------------
  // Reading integers out of names: Kotlin's `Char.isDigit` and `String.toInt`
  // ---------------------------------------------------------------------------

  const IntMin: int := -0x8000_0000
  const IntMax: int := 0x7fff_ffff

  predicate IsDigit(c: char)
  {
    '0' <= c <= '9'
  }

  predicate AllDigits(s: string)
  {
    forall i :: 0 <= i < |s| ==> IsDigit(s[i])
  }

  /** The value of a string of decimal digits, read from the left. */
  function DigitsValue(s: string): nat
    requires AllDigits(s)
  {
    if s == [] then 0 else 10 * DigitsValue(s[..|s| - 1]) + (s[|s| - 1] as int - '0' as int)
  }

  /**
   * `String.toInt`: an optional sign followed by at least one digit, whose value
   * fits a 32-bit `Int`; anything else is a `NumberFormatException`, here `None`.
   */
  function ToInt(s: string): (r: Option<int>)
    ensures r.Some? ==> IntMin <= r.value <= IntMax
  {
    if s == [] then None
    else
      var digits := if s[0] == '-' || s[0] == '+' then s[1..] else s;
      if digits == [] || !AllDigits(digits) then None
      else
        var v: int := if s[0] == '-' then -(DigitsValue(digits) as int) else DigitsValue(digits);
        if IntMin <= v <= IntMax then Some(v) else None
  }

  /** The decimal digits of `n`, without leading zeros: Kotlin's string template of a non-negative number. */
  function NatToString(n: nat): (r: string)
    ensures |r| > 0 && AllDigits(r)
  {
    var d := ['0' + (n % 10) as char];
    if n < 10 then d else NatToString(n / 10) + d
  }

  /** Kotlin's string template of an `Int`. */
  function IntToString(v: int): string
  {
    if v < 0 then "-" + NatToString(-v) else NatToString(v)
  }

  lemma {:induction false} DigitsOfNatToString(n: nat)
    ensures DigitsValue(NatToString(n)) == n
  {
    var d := ['0' + (n % 10) as char];
    if n >= 10 {
      DigitsOfNatToString(n / 10);
      var s := NatToString(n / 10) + d;
      assert s[..|s| - 1] == NatToString(n / 10);
    }
  }

  /** `toInt` reads back every `Int` that the string template writes. */
  lemma ToIntRoundTrip(v: int)
    requires IntMin <= v <= IntMax
    ensures ToInt(IntToString(v)) == Some(v)
  {
    var s := IntToString(v);
    if v < 0 {
      DigitsOfNatToString(-v);
      assert s[1..] == NatToString(-v);
    } else {
      DigitsOfNatToString(v);
    }
  }

  /** Kotlin's `dropWhile { !it.isDigit() }`. */
  function DropNonDigits(s: string): string
  {
    if s == [] || IsDigit(s[0]) then s else DropNonDigits(s[1..])
  }

  /** `dropWhile` removes a prefix of non-digits and stops at the first digit. */
  lemma {:induction false} DropNonDigitsStops(s: string)
    ensures exists k :: 0 <= k <= |s| && DropNonDigits(s) == s[k..] && forall i :: 0 <= i < k ==> !IsDigit(s[i])
    ensures DropNonDigits(s) == [] || IsDigit(DropNonDigits(s)[0])
  {
    if s == [] || IsDigit(s[0]) {
      assert s == s[0..];
    } else {
      DropNonDigitsStops(s[1..]);
      var k :| 0 <= k <= |s| - 1 && DropNonDigits(s[1..]) == s[1..][k..] && forall i :: 0 <= i < k ==> !IsDigit(s[1..][i]);
      assert s[1..][k..] == s[k + 1..];
      forall i | 0 <= i < k + 1
        ensures !IsDigit(s[i])
      {
        if i > 0 {
          assert s[i] == s[1..][i - 1];
        }
      }
    }
  }

  /** Kotlin's `take(n)`: the first `n` characters, or all of them when there are fewer. */
  function Take(s: string, n: nat): string
  {
    if n <= |s| then s[..n] else s
  }

  predicate StartsWith(s: string, prefix: string)
  {
    |prefix| <= |s| && s[..|prefix|] == prefix
  }

  /** Kotlin's `first`/`firstOrNull { f(it) }`: the first element satisfying `f`, if any. */
  function FirstWhere<T>(xs: seq<T>, f: T -> bool): (r: Option<T>)
    ensures r.Some? ==> f(r.value)
  {
    if xs == [] then None
    else if f(xs[0]) then Some(xs[0])
    else FirstWhere(xs[1..], f)
  }

  /** `firstOrNull` finds nothing exactly when no element qualifies, and otherwise the earliest one that does. */
  lemma {:induction false} FirstWhereFinds<T>(xs: seq<T>, f: T -> bool)
    ensures FirstWhere(xs, f).None? <==> forall i :: 0 <= i < |xs| ==> !f(xs[i])
    ensures FirstWhere(xs, f).Some? ==>
      exists i :: 0 <= i < |xs| && xs[i] == FirstWhere(xs, f).value && f(xs[i]) && forall j :: 0 <= j < i ==> !f(xs[j])
  {
    if xs != [] && !f(xs[0]) {
      FirstWhereFinds(xs[1..], f);
      assert forall i :: 1 <= i < |xs| ==> xs[i] == xs[1..][i - 1];
      if FirstWhere(xs, f).Some? {
        var i :| 0 <= i < |xs[1..]| && xs[1..][i] == FirstWhere(xs, f).value && f(xs[1..][i]) && forall j :: 0 <= j < i ==> !f(xs[1..][j]);
        assert xs[i + 1] == FirstWhere(xs, f).value;
      }
    }
  }

  // ---------------------------------------------------------------------------
  // Platforms
  // ---------------------------------------------------------------------------

  datatype Platform = P173 | P181 | P182 | P183

  function PlatformName(p: Platform): string
  {
    match p
    case P173 => "P173"
    case P181 => "P181"
    case P182 => "P182"
    case P183 => "P183"
  }

  /** `Platform.values()`, in declaration order. */
  function Platforms(): seq<Platform>
  {
    [P173, P181, P182, P183]
  }

  /** Kotlin's `drop(n)`: all but the first `n` characters. */
  function Drop(s: string, n: nat): string
  {
    if n <= |s| then s[n..] else []
  }

  /** `name.drop(1).toInt()`: the initialiser of `Platform.version`. */
  function VersionAfterFirst(name: string): (r: Option<int>)
    ensures r.Some? ==> IntMin <= r.value <= IntMax
  {
    ToInt(Drop(name, 1))
  }

  /** `Platform.version`, the value its initialiser gives each constant (`PlatformVersionFromName`). */
  function PlatformVersion(p: Platform): nat
  {
    match p
    case P173 => 173
    case P181 => 181
    case P182 => 182
    case P183 => 183
  }

  /** The initialiser succeeds on every platform name and yields its version: `P182` is version 182. */
  lemma PlatformVersionFromName(p: Platform)
    ensures VersionAfterFirst(PlatformName(p)) == Some(PlatformVersion(p))
  {
    ToIntRoundTrip(PlatformVersion(p));
    match p
    case P173 => assert Drop(PlatformName(p), 1) == IntToString(173);
    case P181 => assert Drop(PlatformName(p), 1) == IntToString(181);
    case P182 => assert Drop(PlatformName(p), 1) == IntToString(182);
    case P183 => assert Drop(PlatformName(p), 1) == IntToString(183);
  }

  /** `Platform[version]`: the platform with that version, or the build fails. */
  function PlatformGet(version: int): (r: Result<Platform, string>)
    ensures r.Success? ==> PlatformVersion(r.value) == version
    ensures r.Failure? ==> r.error == "Can't find platform " + IntToString(version)
  {
    match FirstWhere(Platforms(), p => PlatformVersion(p) == version)
    case Some(p) => Success(p)
    case None => Failure("Can't find platform " + IntToString(version))
  }

  /** `Platform[v]` finds `p` exactly when `p` has version `v`, and fails when no platform does. */
  lemma PlatformGetFinds(version: int, p: Platform)
    ensures PlatformGet(version) == Success(p) <==> PlatformVersion(p) == version
    ensures PlatformGet(version).Failure? <==> forall q: Platform :: PlatformVersion(q) != version
  {
    FirstWhereFinds(Platforms(), p => PlatformVersion(p) == version);
    forall q: Platform
      ensures q in Platforms()
    {
      assert q == Platforms()[0] || q == Platforms()[1] || q == Platforms()[2] || q == Platforms()[3];
    }
  }

  // ---------------------------------------------------------------------------
  // Bunches
  // ---------------------------------------------------------------------------

  datatype Kind = AndroidStudio | IntelliJ

  function ShortName(k: Kind): string
  {
    match k
    case AndroidStudio => "AS"
    case IntelliJ => "IJ"
  }

  /** `Kind.values()`, in declaration order. */
  function Kinds(): seq<Kind>
  {
    [AndroidStudio, IntelliJ]
  }

  datatype Bunch = IJ173 | IJ181 | IJ182 | IJ183 | AS31 | AS32 | AS33

  function BunchName(b: Bunch): string
  {
    match b
    case IJ173 => "IJ173"
    case IJ181 => "IJ181"
    case IJ182 => "IJ182"
    case IJ183 => "IJ183"
    case AS31 => "AS31"
    case AS32 => "AS32"
    case AS33 => "AS33"
  }

  /** `Bunch.values()`, in declaration order. */
  function Bunches(): seq<Bunch>
  {
    [IJ173, IJ181, IJ182, IJ183, AS31, AS32, AS33]
  }

  /** The platform each bunch is declared with. */
  function BunchPlatform(b: Bunch): Platform
  {
    match b
    case IJ173 => P173
    case IJ181 => P181
    case IJ182 => P182
    case IJ183 => P183
    case AS31 => P173
    case AS32 => P181
    case AS33 => P182
  }

  /** The kind whose short name is the first two letters of `name`, if any. */
  function KindNamed(name: string): (r: Option<Kind>)
    ensures r.Some? ==> ShortName(r.value) == Take(name, 2)
  {
    FirstWhere(Kinds(), k => ShortName(k) == Take(name, 2))
  }

  /** `name.dropWhile { !it.isDigit() }.toInt()`: the initialiser of `Bunch.version`. */
  function VersionNamed(name: string): (r: Option<int>)
    ensures r.Some? ==> IntMin <= r.value <= IntMax
  {
    ToInt(DropNonDigits(name))
  }

  /** `Bunch.kind`, the value its initialiser gives each constant (`BunchFromName`). */
  function KindOf(b: Bunch): Kind
  {
    match b
    case AS31 | AS32 | AS33 => AndroidStudio
    case IJ173 | IJ181 | IJ182 | IJ183 => IntelliJ
  }

  /** `Bunch.version`, the value its initialiser gives each constant (`BunchFromName`). */
  function BunchVersion(b: Bunch): nat
  {
    match b
    case IJ173 => 173
    case IJ181 => 181
    case IJ182 => 182
    case IJ183 => 183
    case AS31 => 31
    case AS32 => 32
    case AS33 => 33
  }

  /** Every bunch name is its kind's short name followed by its version. */
  lemma NameParts(b: Bunch)
    ensures BunchName(b) == ShortName(KindOf(b)) + NatToString(BunchVersion(b))
  {
    match b
    case IJ173 => assert NatToString(173) == "173";
    case IJ181 => assert NatToString(181) == "181";
    case IJ182 => assert NatToString(182) == "182";
    case IJ183 => assert NatToString(183) == "183";
    case AS31 => assert NatToString(31) == "31";
    case AS32 => assert NatToString(32) == "32";
    case AS33 => assert NatToString(33) == "33";
  }

  /** A name that starts with a kind's short name has that kind. */
  lemma KindNamedByPrefix(k: Kind, rest: string)
    ensures KindNamed(ShortName(k) + rest) == Some(k)
  {
    var name := ShortName(k) + rest;
    assert Take(name, 2) == ShortName(k);
    assert Kinds()[0] == AndroidStudio && Kinds()[1] == IntelliJ;
  }

  /** The digits behind a kind's short name read back as the number they spell. */
  lemma VersionBehindPrefix(k: Kind, v: nat)
    requires v <= IntMax
    ensures VersionNamed(ShortName(k) + NatToString(v)) == Some(v)
  {
    var digits := NatToString(v);
    var name := ShortName(k) + digits;
    assert name[1..][1..] == digits;
    assert DropNonDigits(name[1..][1..]) == digits;
    assert DropNonDigits(name) == digits;
    ToIntRoundTrip(v);
  }

  /**
   * The initialisers succeed on every bunch name and yield its kind and version:
   * `AS32` is an Android Studio bunch of version 32, `IJ182` an IntelliJ bunch of version 182.
   */
  lemma BunchFromName(b: Bunch)
    ensures KindNamed(BunchName(b)) == Some(KindOf(b))
    ensures VersionNamed(BunchName(b)) == Some(BunchVersion(b))
  {
    NameParts(b);
    KindNamedByPrefix(KindOf(b), NatToString(BunchVersion(b)));
    VersionBehindPrefix(KindOf(b), BunchVersion(b));
  }

  /** An IntelliJ bunch has the version of its platform. */
  lemma IntelliJBunchOnItsPlatform(b: Bunch)
    requires KindOf(b) == IntelliJ
    ensures BunchVersion(b) == PlatformVersion(BunchPlatform(b))
  {
  }

  /** Kind and version tell bunches apart. */
  lemma BunchIdentity(b: Bunch, c: Bunch)
    requires KindOf(b) == KindOf(c) && BunchVersion(b) == BunchVersion(c)
    ensures b == c
  {
  }

  /** `Bunch.valueOf(name)`: the bunch so named, or `None` where the build script throws. */
  function BunchNamed(name: string): (r: Option<Bunch>)
    ensures r.Some? ==> BunchName(r.value) == name
  {
    FirstWhere(Bunches(), b => BunchName(b) == name)
  }

  /** `valueOf` finds a bunch exactly by its name. */
  lemma BunchNamedFinds(name: string, b: Bunch)
    ensures BunchNamed(name) == Some(b) <==> BunchName(b) == name
  {
    assert b in Bunches();
    FirstWhereFinds(Bunches(), b => BunchName(b) == name);
    if BunchName(b) == name {
      var r := BunchNamed(name);
      assert r.Some?;
      var c := r.value;
      assert BunchName(c) == name;
    }
  }

  /** The bunch name for a `versions.platform` value: unchanged if it starts with "AS", otherwise prefixed with "IJ". */
  function DeriveBunchName(platformVersion: string): (r: string)
    ensures StartsWith(r, "AS") || StartsWith(r, "IJ")
  {
    if StartsWith(platformVersion, "AS") then platformVersion else "IJ" + platformVersion
  }

  /**
   * Every bunch is selected by some `versions.platform` value: an Android Studio
   * bunch by its own name, an IntelliJ bunch by its bare version number.
   */
  lemma EveryBunchSelectable(b: Bunch)
    ensures BunchNamed(DeriveBunchName(if KindOf(b) == AndroidStudio then BunchName(b) else BunchName(b)[2..])) == Some(b)
  {
    NameParts(b);
    var digits := NatToString(BunchVersion(b));
    var v := if KindOf(b) == AndroidStudio then BunchName(b) else BunchName(b)[2..];
    if KindOf(b) == IntelliJ {
      assert v == digits;
      assert !StartsWith(v, "AS") by {
        assert IsDigit(v[0]);
      }
    } else {
      assert StartsWith(v, "AS");
    }
    assert DeriveBunchName(v) == BunchName(b);
    BunchNamedFinds(BunchName(b), b);
  }

  /** The derived bunch, when there is one, has the kind the "AS" prefix announces. */
  lemma DerivedKind(platformVersion: string, b: Bunch)
    requires BunchNamed(DeriveBunchName(platformVersion)) == Some(b)
    ensures KindOf(b) == if StartsWith(platformVersion, "AS") then AndroidStudio else IntelliJ
  {
    BunchNamedFinds(DeriveBunchName(platformVersion), b);
    NameParts(b);
  }

  // ---------------------------------------------------------------------------
  // Predicates
  // ---------------------------------------------------------------------------

  /** The `BunchPredicate`s a build script can form. */
  datatype BunchPredicate =
    | OfBunch(bunch: Bunch)            // a `Bunch` used as a predicate
    | OfPlatform(platform: Platform)   // a `Platform` used as a predicate
    | OfKind(kind: Kind)               // `Bunch.IJ`, `Bunch.AS`
    | Not(inner: BunchPredicate)       // `p.not`
    | Or(left: BunchPredicate, right: BunchPredicate)  // `p.or(q)`
    | PlatformOrHigher(p: Platform)
    | PlatformOrLower(p: Platform)
    | BunchOrHigher(b: Bunch)
    | BunchOrLower(b: Bunch)

  const IJ: BunchPredicate := OfKind(IntelliJ)
  const AS: BunchPredicate := OfKind(AndroidStudio)

  /** `BunchPredicate.matches`. */
  function Matches(pred: BunchPredicate, bunch: Bunch): bool
  {
    match pred
    case OfBunch(b) => bunch == b
    case OfPlatform(p) => BunchPlatform(bunch) == p
    case OfKind(k) => KindOf(bunch) == k
    case Not(q) => !Matches(q, bunch)
    case Or(l, r) => Matches(l, bunch) || Matches(r, bunch)
    case PlatformOrHigher(p) => PlatformVersion(BunchPlatform(bunch)) >= PlatformVersion(p)
    case PlatformOrLower(p) => PlatformVersion(BunchPlatform(bunch)) <= PlatformVersion(p)
    case BunchOrHigher(b) => KindOf(bunch) == KindOf(b) && BunchVersion(bunch) >= BunchVersion(b)
    case BunchOrLower(b) => KindOf(bunch) == KindOf(b) && BunchVersion(bunch) <= BunchVersion(b)
  }

  /** Every bunch. */
  function AllBunches(): set<Bunch>
  {
    set b | b in Bunches()
  }

  /** The bunches a predicate selects. */
  function Selects(pred: BunchPredicate): set<Bunch>
  {
    set b | b in Bunches() && Matches(pred, b)
  }

  lemma AllBunchesListed(b: Bunch)
    ensures b in Bunches()
  {
  }

  /** `not` selects exactly the bunches the predicate does not select. */
  lemma NotComplements(pred: BunchPredicate)
    ensures Selects(Not(pred)) == AllBunches() - Selects(pred)
    ensures Selects(Not(Not(pred))) == Selects(pred)
  {
    assert forall b :: b in Selects(Not(pred)) <==> b in AllBunches() && b !in Selects(pred);
  }

  /** `or` selects exactly the union. */
  lemma OrUnites(p: BunchPredicate, q: BunchPredicate)
    ensures Selects(Or(p, q)) == Selects(p) + Selects(q)
  {
    assert forall b :: b in Selects(Or(p, q)) <==> b in Selects(p) || b in Selects(q);
  }

  /** De Morgan: `p.not.or(q.not).not` selects exactly what both `p` and `q` select. */
  lemma BothViaNotOr(p: BunchPredicate, q: BunchPredicate)
    ensures Selects(Not(Or(Not(p), Not(q)))) == Selects(p) * Selects(q)
  {
    forall b
      ensures b in Selects(Not(Or(Not(p), Not(q)))) <==> b in Selects(p) && b in Selects(q)
    {
      assert Matches(Or(Not(p), Not(q)), b) <==> !Matches(p, b) || !Matches(q, b);
    }
  }

  /** `Bunch.IJ` and `Bunch.AS` split the bunches between them. */
  lemma KindsPartition(b: Bunch)
    ensures Matches(IJ, b) != Matches(AS, b)
  {
  }

  /** A `Bunch` as a predicate selects itself only; a `Platform` the bunches declared on it. */
  lemma SinglePredicates(b: Bunch, p: Platform)
    ensures Selects(OfBunch(b)) == {b}
    ensures Selects(OfPlatform(p)) == set c | c in Bunches() && BunchPlatform(c) == p
  {
    AllBunchesListed(b);
  }

  /** `p.orHigher` and `p.orLower` together cover every bunch and overlap exactly on the platform `p`. */
  lemma PlatformRangesMeet(p: Platform, b: Bunch)
    ensures Matches(Or(PlatformOrHigher(p), PlatformOrLower(p)), b)
    ensures Matches(PlatformOrHigher(p), b) && Matches(PlatformOrLower(p), b) <==> Matches(OfPlatform(p), b)
  {
  }

  /** A later platform's `orHigher` selects fewer bunches, and its `orLower` more. */
  lemma PlatformRangesMonotone(p: Platform, q: Platform)
    requires PlatformVersion(p) <= PlatformVersion(q)
    ensures Selects(PlatformOrHigher(q)) <= Selects(PlatformOrHigher(p))
    ensures Selects(PlatformOrLower(p)) <= Selects(PlatformOrLower(q))
  {
  }

  /** `b.orHigher` and `b.orLower` stay within the kind of `b` and overlap exactly on `b`. */
  lemma BunchRangesMeet(b: Bunch, c: Bunch)
    ensures Matches(BunchOrHigher(b), c) || Matches(BunchOrLower(b), c) <==> Matches(OfKind(KindOf(b)), c)
    ensures Matches(BunchOrHigher(b), c) && Matches(BunchOrLower(b), c) <==> Matches(OfBunch(b), c)
  {
  }

  /** A later bunch's `orHigher` selects fewer bunches, and its `orLower` more. */
  lemma BunchRangesMonotone(b: Bunch, c: Bunch)
    requires KindOf(b) == KindOf(c) && BunchVersion(b) <= BunchVersion(c)
    ensures Selects(BunchOrHigher(c)) <= Selects(BunchOrHigher(b))
    ensures Selects(BunchOrLower(b)) <= Selects(BunchOrLower(c))
  {
  }

  /** An IntelliJ bunch's `orHigher` selects the IntelliJ bunches of its platform's `orHigher`. */
  lemma IntelliJOrHigher(b: Bunch, c: Bunch)
    requires KindOf(b) == IntelliJ
    ensures Matches(BunchOrHigher(b), c) <==> Matches(IJ, c) && Matches(PlatformOrHigher(BunchPlatform(b)), c)
  {

  }

  // ---------------------------------------------------------------------------
  // The configured bunch
  // ---------------------------------------------------------------------------

  /** Why configuring or consulting the current bunch fails. */
  datatype ConfigError =
    | NoSuchBunch(name: string)   // `Bunch.valueOf` throws
    | Uninitialized               // `currentBunch` read before `setCurrentBunch`

  /** `BunchConfigurator`: holds the bunch being built; `None` until it is set (`lateinit`). */
  class BunchConfigurator {
    var currentBunch: Option<Bunch>

    constructor()
      ensures currentBunch.None?
    {
      currentBunch := None;
    }

    /**
     * `setCurrentBunch`, given the `versions.platform` value: the bunch named by the
     * derived name becomes current; an unknown name leaves the configuration as it was.
     */
    method SetCurrentBunch(platformVersion: string) returns (r: Result<Bunch, ConfigError>)
      modifies this
      ensures r.Success? <==> BunchNamed(DeriveBunchName(platformVersion)).Some?
      ensures r.Success? ==> currentBunch == Some(r.value) && BunchName(r.value) == DeriveBunchName(platformVersion)
      ensures r.Failure? ==> r.error == NoSuchBunch(DeriveBunchName(platformVersion)) && currentBunch == old(currentBunch)
    {
      var name := DeriveBunchName(platformVersion);
      var b := BunchNamed(name);
      if b.Some? {
        BunchNamedFinds(name, b.value);
        currentBunch := b;
        r := Success(b.value);
      } else {
        r := Failure(NoSuchBunch(name));
      }
    }

    /**
     * `BunchPredicate.invoke(block)`: the block runs, and a non-null value comes back,
     * exactly when the predicate matches the current bunch. `ran` says whether the
     * block ran; the value is `emptyList()` (`Some([])`) or `null` (`None`).
     */
    method Invoke(pred: BunchPredicate) returns (ran: bool, r: Result<Option<seq<()>>, ConfigError>)
      ensures currentBunch.None? ==> !ran && r == Failure(Uninitialized)
      ensures currentBunch.Some? ==> (ran <==> Matches(pred, currentBunch.value))
      ensures currentBunch.Some? ==> r == Success(if Matches(pred, currentBunch.value) then Some([]) else None)
    {
      if currentBunch.None? {
        return false, Failure(Uninitialized);
      }
      if Matches(pred, currentBunch.value) {
        ran := true;
        r := Success(Some([]));
      } else {
        ran := false;
        r := Success(None);
      }
    }
  }

  /** For a configured bunch, exactly one of `p { … }` and `p.not { … }` runs its block. */
  method ExactlyOneBranchRuns(c: BunchConfigurator, pred: BunchPredicate) returns (ranThen: bool, ranElse: bool)
    requires c.currentBunch.Some?
    ensures ranThen != ranElse
  {
    var r1, r2;
    ranThen, r1 := c.Invoke(pred);
    ranElse, r2 := c.Invoke(Not(pred));
  }
}
