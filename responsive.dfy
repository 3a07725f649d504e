/** Breakpoint classification of the window width (frontend/src/hooks/useResponsive.ts).
    Widths are whole pixels. */
module Responsive {
  import opened Wrappers

  datatype Breakpoint = Xs | Sm | Md | Lg | Xl | Xxl

  /** The breakpoint table: the least width of each breakpoint. */
  function Threshold(b: Breakpoint): int {
    match b
    case Xs => 0
    case Sm => 576
    case Md => 768
    case Lg => 992
    case Xl => 1200
    case Xxl => 1400
  }

  /** Position in the order xs < sm < md < lg < xl < 2xl. */
  function Rank(b: Breakpoint): (r: nat)
    ensures r <= 5
  {
    match b
    case Xs => 0
    case Sm => 1
    case Md => 2
    case Lg => 3
    case Xl => 4
    case Xxl => 5
  }

  /** The next larger breakpoint, none after 2xl. */
  function Next(b: Breakpoint): (r: Option<Breakpoint>)
    ensures r.None? <==> b == Xxl
    ensures r.Some? ==> Rank(r.value) == Rank(b) + 1
  {
    match b
    case Xs => Some(Sm)
    case Sm => Some(Md)
    case Md => Some(Lg)
    case Lg => Some(Xl)
    case Xl => Some(Xxl)
    case Xxl => None
  }

  /** The thresholds grow strictly with the order. */
  lemma ThresholdsIncrease(a: Breakpoint, b: Breakpoint)
    ensures Rank(a) < Rank(b) <==> Threshold(a) < Threshold(b)
    ensures Rank(a) == Rank(b) <==> a == b
  {
  }

  /** `getCurrentBreakpoint` */
  function CurrentBreakpoint(width: int): Breakpoint {
    if width >= Threshold(Xxl) then Xxl
    else if width >= Threshold(Xl) then Xl
    else if width >= Threshold(Lg) then Lg
    else if width >= Threshold(Md) then Md
    else if width >= Threshold(Sm) then Sm
    else Xs
  }

  /** `matchesBreakpoint` */
  predicate Matches(width: int, b: Breakpoint) {
    width >= Threshold(b)
  }

  /** The current breakpoint is the largest whose threshold the width reaches (xs for
      every width below 576, negative ones included). */
  lemma CurrentIsLargestMatch(width: int, b: Breakpoint)
    ensures var c := CurrentBreakpoint(width);
      && (c == Xs || Matches(width, c))
      && (Matches(width, b) ==> Rank(b) <= Rank(c))
      && (Next(c).Some? ==> !Matches(width, Next(c).value))
  {
  }

  predicate IsMobile(width: int) {
    Matches(width, Xs) && !Matches(width, Md)
  }

  predicate IsTablet(width: int) {
    Matches(width, Md) && !Matches(width, Lg)
  }

  predicate IsDesktop(width: int) {
    Matches(width, Lg)
  }

  /** Every non-negative width is exactly one of mobile, tablet and desktop. */
  lemma DeviceClassesPartition(width: int)
    requires width >= 0
    ensures IsMobile(width) || IsTablet(width) || IsDesktop(width)
    ensures !(IsMobile(width) && IsTablet(width)) && !(IsMobile(width) && IsDesktop(width))
    ensures !(IsTablet(width) && IsDesktop(width))
  {
  }

  predicate IsAtLeast(width: int, b: Breakpoint) {
    Matches(width, b)
  }

  /** `isAtMost`: below the next breakpoint's threshold; always true for 2xl. */
  predicate IsAtMost(width: int, b: Breakpoint) {
    match Next(b)
    case None => true
    case Some(n) => width < Threshold(n)
  }

  predicate IsBetween(width: int, lo: Breakpoint, hi: Breakpoint) {
    IsAtLeast(width, lo) && IsAtMost(width, hi)
  }

  /** The width comparisons agree with comparing the current breakpoint. */
  lemma ComparisonsFollowCurrent(width: int, b: Breakpoint)
    requires width >= 0
    ensures IsAtLeast(width, b) <==> Rank(b) <= Rank(CurrentBreakpoint(width))
    ensures IsAtMost(width, b) <==> Rank(CurrentBreakpoint(width)) <= Rank(b)
    ensures IsAtMost(width, Xxl)
  {
  }

  /** The lookup order of `useResponsiveValue`, largest first. */
  const Order: seq<Breakpoint> := [Xxl, Xl, Lg, Md, Sm, Xs]

  lemma OrderRanks()
    ensures forall i :: 0 <= i < |Order| ==> Rank(Order[i]) == 5 - i
  {
  }

  /** `useResponsiveValue`: the value given for the current breakpoint, else for the
      nearest smaller breakpoint that has one, else the default. */
  method ResponsiveValue<T>(values: map<Breakpoint, T>, default: T, width: int) returns (r: T)
    ensures (forall b :: b in values ==> Rank(b) > Rank(CurrentBreakpoint(width))) ==> r == default
    ensures (exists b :: b in values && Rank(b) <= Rank(CurrentBreakpoint(width))) ==>
      exists b :: && b in values && Rank(b) <= Rank(CurrentBreakpoint(width)) && r == values[b]
                  && forall c :: c in values && Rank(c) <= Rank(CurrentBreakpoint(width)) ==> Rank(c) <= Rank(b)
  {
    var current := CurrentBreakpoint(width);
    OrderRanks();
    var start := 5 - Rank(current);
    assert Order[start] == current by { ThresholdsIncrease(Order[start], current); }
    for i := start to |Order|
      invariant forall j :: start <= j < i ==> Order[j] !in values
    {
      var b := Order[i];
      if b in values {
        forall c | c in values && Rank(c) <= Rank(current) ensures Rank(c) <= Rank(b) {
          ThresholdsIncrease(c, Order[5 - Rank(c)]);
          assert Order[5 - Rank(c)] == c;
        }
        return values[b];
      }
    }
    forall b | b in values ensures Rank(b) > Rank(current) {
      ThresholdsIncrease(b, Order[5 - Rank(b)]);
      assert Order[5 - Rank(b)] == b;
    }
    return default;
  }
}
