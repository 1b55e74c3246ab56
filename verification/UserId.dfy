/** User ids: four ways to build one, two ways to print one, one parser (grid/userid.rs). */
module UserId {
  import opened Prelude
  import opened Decimal

  datatype UserId = UserId(zone: Option<nat>, local: string)

  datatype QuaiZone = Cyprus | Paxos | Hydra

  function Code(z: QuaiZone): nat {
    match z
    case Cyprus => 0
    case Paxos => 1
    case Hydra => 2
  }

  /** The two random numbers are parameters: 1..9 and 0..999999999. */
  function Generate(first: nat, rest: nat): UserId
    requires 1 <= first < 10 && rest < 1_000_000_000
  {
    UserId(None, Print(first) + Padded(rest, 9))
  }

  /** `num` is the first eight bytes of the hash as a big-endian number. */
  function FromSeed(num: nat): UserId
    requires num < TWO_TO_64
  {
    UserId(None, Print(1_000_000_000 + num % 9_000_000_000))
  }

  function FromSbt(zone: QuaiZone, local: string): Option<UserId> {
    if |local| == 10 && AllDigits(local) then Some(UserId(Some(Code(zone)), local)) else None
  }

  /** The characters of a string other than dashes and spaces. */
  function Normalized(s: string): string {
    if s == [] then []
    else (if s[0] == '-' || s[0] == ' ' then [] else [s[0]]) + Normalized(s[1..])
  }

  function FromString(s: string): Option<UserId> {
    var n := Normalized(s);
    if |n| == 11 && AllDigits(n) then Some(UserId(Some(DigitValue(n[0])), n[1..11]))
    else if |n| == 10 && AllDigits(n) then Some(UserId(None, n))
    else None
  }

  function Display(id: UserId): string {
    var l := id.local;
    var formatted := if |l| == 10 then l[0..3] + "-" + l[3..6] + "-" + l[6..10] else l;
    match id.zone
    case Some(z) => Print(z) + "-" + formatted
    case None => formatted
  }

  function AsStr(id: UserId): string {
    match id.zone
    case Some(z) => Print(z) + id.local
    case None => id.local
  }

  /** Ten digits, and a zone of one digit if there is one. */
  predicate WellFormed(id: UserId) {
    |id.local| == 10 && AllDigits(id.local) && (id.zone.Some? ==> id.zone.value < 10)
  }

  predicate IsSeparator(c: char) { c == '-' || c == ' ' }

  /** How many dashes and spaces there are. */
  function Separators(s: string): nat {
    if s == [] then 0 else (if IsSeparator(s[0]) then 1 else 0) + Separators(s[1..])
  }

  /** Normalizing takes out the dashes and spaces, and nothing else. */
  lemma {:induction false} NormalizedDropsSeparators(s: string)
    ensures forall c :: c in Normalized(s) ==> c != '-' && c != ' '
    ensures |Normalized(s)| == |s| - Separators(s)
  {
    if s == [] {
    } else {
      NormalizedDropsSeparators(s[1..]);
    }
  }

  /** Every other character stays, moved to the front by the dashes and spaces before it; so they keep their order. */
  lemma {:induction false} NormalizedKeepsOthers(s: string, i: nat)
    requires i < |s| && s[i] != '-' && s[i] != ' '
    ensures var k := i - Separators(s[..i]); 0 <= k < |Normalized(s)| && Normalized(s)[k] == s[i]
  {
    if i == 0 {
    } else {
      assert s[..i][1..] == s[1..][..i - 1];
      NormalizedKeepsOthers(s[1..], i - 1);
    }
  }

  lemma {:induction false} NormalizedAppend(a: string, b: string)
    ensures Normalized(a + b) == Normalized(a) + Normalized(b)
  {
    if a == [] {
      assert a + b == b;
    } else {
      assert (a + b)[1..] == a[1..] + b;
      NormalizedAppend(a[1..], b);
    }
  }

  lemma {:induction false} NormalizedDigits(s: string)
    requires AllDigits(s)
    ensures Normalized(s) == s
  {
    if s == [] {
    } else {
      NormalizedDigits(s[1..]);
    }
  }

  lemma ConstructorsAreWellFormed(first: nat, rest: nat, num: nat, zone: QuaiZone, s: string)
    requires 1 <= first < 10 && rest < 1_000_000_000 && num < TWO_TO_64
    ensures WellFormed(Generate(first, rest)) && Generate(first, rest).local[0] != '0'
    ensures WellFormed(FromSeed(num)) && FromSeed(num).zone.None?
    ensures FromSbt(zone, s).Some? <==> |s| == 10 && AllDigits(s)
    ensures FromSbt(zone, s).Some? ==> WellFormed(FromSbt(zone, s).value)
    ensures FromSbt(zone, s).Some? ==>
      && FromSbt(zone, s).value.local == s
      && FromSbt(zone, s).value.zone == Some(if zone.Cyprus? then 0 else if zone.Paxos? then 1 else 2)
    ensures FromString(s).Some? ==> WellFormed(FromString(s).value)
  {
    TenDigits();
    PrintLengthAtMost(rest, 9);
    PrintLength(1_000_000_000 + num % 9_000_000_000, 10);
  }

  lemma TenDigits()
    ensures Pow10(9) == 1_000_000_000 && Pow10(10) == 10_000_000_000
  {
  }

  /** The digits hold exactly what was drawn, or the hash reduced to ten digits: nothing is lost or mixed up. */
  lemma DigitsHoldTheDraw(first: nat, rest: nat, num: nat)
    requires 1 <= first < 10 && rest < 1_000_000_000 && num < TWO_TO_64
    ensures Value(Generate(first, rest).local) == first * 1_000_000_000 + rest
    ensures Value(FromSeed(num).local) == 1_000_000_000 + num % 9_000_000_000
  {
    TenDigits();
    PaddedKeepsValue(rest, 9);
    PrintThenRead(first);
    ValueAppend(Print(first), Padded(rest, 9));
    PrintThenRead(1_000_000_000 + num % 9_000_000_000);
  }

  /** The parser accepts exactly ten or eleven digits, once dashes and spaces are gone. */
  lemma ParsesIff(s: string)
    ensures FromString(s).Some? <==> AllDigits(Normalized(s)) && (|Normalized(s)| == 10 || |Normalized(s)| == 11)
    ensures FromString(s).Some? ==> AsStr(FromString(s).value) == Normalized(s)
  {
  }

  /** Both printed forms lead back to the id, and they do so exactly for the well-formed ones. */
  lemma RoundTripIff(id: UserId)
    ensures FromString(AsStr(id)) == Some(id) <==> WellFormed(id)
    ensures FromString(Display(id)) == Some(id) <==> WellFormed(id)
  {
    ParsedIsWellFormed(AsStr(id));
    ParsedIsWellFormed(Display(id));
    if WellFormed(id) {
      NormalizedDigits(AsStr(id));
      DisplayNormalizes(id);
      if id.zone.Some? {
        assert Print(id.zone.value) == [Digit(id.zone.value)];
        assert AsStr(id)[1..11] == id.local;
      }
    }
  }

  lemma ParsedIsWellFormed(s: string)
    ensures FromString(s).Some? ==> WellFormed(FromString(s).value)
  {
  }

  /** A dash between two strings disappears. */
  lemma DashDropped(a: string, b: string)
    ensures Normalized(a + "-" + b) == Normalized(a) + Normalized(b)
  {
    NormalizedAppend(a + "-", b);
    NormalizedAppend(a, "-");
    assert Normalized("-") == "" && Normalized(a) + "" == Normalized(a);
  }

  lemma GroupsNormalize(l: string)
    requires |l| == 10 && AllDigits(l)
    ensures Normalized(l[0..3] + "-" + l[3..6] + "-" + l[6..10]) == l
  {
    var a, b, c := l[0..3], l[3..6], l[6..10];
    DashDropped(a + "-" + b, c);
    DashDropped(a, b);
    NormalizedDigits(a);
    NormalizedDigits(b);
    NormalizedDigits(c);
    assert a + b + c == l;
  }

  lemma DisplayNormalizes(id: UserId)
    requires WellFormed(id)
    ensures Normalized(Display(id)) == AsStr(id)
  {
    GroupsNormalize(id.local);
    if id.zone.Some? {
      var l := id.local;
      DashDropped(Print(id.zone.value), l[0..3] + "-" + l[3..6] + "-" + l[6..10]);
      NormalizedDigits(Print(id.zone.value));
    }
  }

  /** The display groups the digits 3-3-4, with the zone in front: dashes stand exactly between the groups. */
  lemma DisplayShape(id: UserId)
    requires WellFormed(id)
    ensures var d := Display(id);
      if id.zone.Some? then |d| == 14 && forall i :: 0 <= i < 14 ==> (d[i] == '-' <==> i == 1 || i == 5 || i == 9)
      else |d| == 12 && forall i :: 0 <= i < 12 ==> (d[i] == '-' <==> i == 3 || i == 7)
  {
    var l := id.local;
    var groups := l[0..3] + "-" + l[3..6] + "-" + l[6..10];
    assert |groups| == 12;
    if id.zone.Some? {
      var z := Print(id.zone.value);
      assert |z| == 1 && IsDigit(z[0]);
      assert Display(id) == z + "-" + groups;
    }
  }

  /** Storage keys and displayed ids identify the user. */
  lemma PrintedFormsAreInjective(a: UserId, b: UserId)
    requires WellFormed(a) && WellFormed(b)
    ensures AsStr(a) == AsStr(b) ==> a == b
    ensures Display(a) == Display(b) ==> a == b
  {
    RoundTripIff(a);
    RoundTripIff(b);
  }

  /** Without well-formedness keys collide: the last digit of a longer zone runs into the local part. None of the
      constructors builds such an id; but the type can be deserialized without any check, and the proofs of identity in
      grid/sbt.rs carry one, so it can come out of decoded JSON. */
  lemma LongZonesCollide(zone: nat, local: string)
    requires zone >= 10
    ensures AsStr(UserId(Some(zone), local)) == AsStr(UserId(Some(zone / 10), [Digit(zone % 10)] + local))
  {
    var front, last := Print(zone / 10), [Digit(zone % 10)];
    assert Print(zone) == front + last;
    assert (front + last) + local == front + (last + local);
  }
}
