/** Reserving 2 MB huge pages for a guest: 32-bit accounting and a bounded poll of the kernel's counter. */
module HugePages {
  import opened Options

  const INT32_MAX: int := 0x7FFF_FFFF
  const POLLS: nat := 200

  predicate IsInt32(x: int) {
    -INT32_MAX - 1 <= x <= INT32_MAX
  }

  /** What a 32-bit computation leaves of `x`. */
  function Wrap(x: int): (r: int)
    ensures IsInt32(r) && (IsInt32(x) ==> r == x)
  {
    (x + INT32_MAX + 1) % (2 * (INT32_MAX + 1)) - INT32_MAX - 1
  }

  datatype Unit = Megabytes | Gigabytes | BadUnit

  /** The unit the last character of the size stands for, after `toupper`. */
  function UnitOf(c: char): Unit {
    if '0' <= c <= '9' || 'A' <= c <= 'F' || 'a' <= c <= 'f' || c == 'M' || c == 'm' then Megabytes
    else if c == 'G' || c == 'g' then Gigabytes
    else BadUnit
  }

  /** The page count asked for: the pages in use plus those the guest needs. */
  function Required(nr: int, free: int, pages: int): int {
    Wrap(Wrap(nr - free) + pages)
  }

  /** The last characters that leave the number a count of megabytes, and those that make it one of gigabytes. */
  const MEGA: string := "0123456789ABCDEFMabcdefm"
  const GIGA: string := "Gg"

  lemma UnitIsExact(c: char)
    ensures UnitOf(c) == if c in MEGA then Megabytes else if c in GIGA then Gigabytes else BadUnit
  {
    assert MEGA == ['0', '1', '2', '3', '4', '5', '6', '7', '8', '9'] + ['A', 'B', 'C', 'D', 'E', 'F', 'M']
                   + ['a', 'b', 'c', 'd', 'e', 'f', 'm'];
    assert GIGA == ['G', 'g'];
  }

  /** The outcome of a request for `pages` huge pages: success at once if that many are free; otherwise success exactly
      if the counter reads what was asked for before the request or in one of the first 200 polls, after at most
      201. */
  ghost predicate Outcome(ok: bool, polls: nat, free: int, nr: nat -> int, pages: int) {
    if free >= pages then ok && polls == 0
    else
      && polls <= 201
      && (ok ==> polls <= 200 && nr(polls) == Required(nr(0), free, pages))
      && (ok <==> exists k: nat :: k <= 200 && nr(k) == Required(nr(0), free, pages))
  }

  /** `nr(0)` is the counter before the request and `nr(k)` what the k-th poll reads. */
  method SetupHugePages(parsed: Option<int>, back: char, free: int, nr: nat -> int) returns (ok: bool, polls: nat)
    requires parsed.Some? ==> IsInt32(parsed.value)
    ensures parsed.Some? && parsed.value > 0 && back in MEGA ==> Outcome(ok, polls, free, nr, parsed.value / 2)
    ensures parsed.Some? && 0 < parsed.value <= 0x7FFF_FFFF / 1024 && back in GIGA ==>
      Outcome(ok, polls, free, nr, 512 * parsed.value)
    ensures ok || polls > 0 ==>
      && parsed.Some? && parsed.value > 0
      && (back in MEGA || (back in GIGA && parsed.value <= 0x7FFF_FFFF / 1024))
  {
    ok, polls := false, 0;
    if parsed.None? || parsed.value <= 0 {
      return;
    }
    var mb := parsed.value;
    UnitIsExact(back);
    match UnitOf(back) {
      case Megabytes =>
      case Gigabytes =>
        if mb > INT32_MAX / 1024 {
          return;
        }
        mb := mb * 1024;
      case BadUnit => return;
    }
    ok, polls := ReservePages(mb / 2, free, nr);
  }

  /** The second half: counts the free pages, asks for more and polls the counter. */
  method ReservePages(pages: int, free: int, nr: nat -> int) returns (ok: bool, polls: nat)
    ensures Outcome(ok, polls, free, nr, pages)
  {
    ok, polls := false, 0;
    if free >= pages {
      return true, 0;
    }
    var count := nr(0);
    var required := Wrap(Wrap(count - free) + pages);
    var waited := 0;
    while count != required
      invariant 0 <= waited <= POLLS && polls == waited && count == nr(polls)
      invariant forall j :: 0 <= j < polls ==> nr(j) != required
      decreases POLLS - waited
    {
      polls := polls + 1;
      count := nr(polls);
      if waited < POLLS {
        waited := waited + 1;
      } else {
        return;
      }
    }
    ok := true;
  }

  /** The accounting stays within 32 bits for every size that can be parsed, exactly as long as at most 2^30 pages
      are in use. */
  lemma AccountingFits(nr: int, free: int)
    requires 0 <= free <= nr <= INT32_MAX
    ensures (forall mb :: 0 < mb <= INT32_MAX ==> Required(nr, free, mb / 2) == (nr - free) + mb / 2)
            <==> nr - free <= 0x4000_0000
  {
    if nr - free > 0x4000_0000 {
      assert Required(nr, free, INT32_MAX / 2) != (nr - free) + INT32_MAX / 2;
    }
  }

  /** With the pages in use constant during the wait, a poll that meets the required count finds exactly the pages
      the guest needs free, the pages of the others untouched; and it is never the count read before the request. */
  lemma SuccessLeavesEnough(nr: nat -> int, free: int, pages: int, k: nat)
    requires 0 <= free <= nr(0) <= INT32_MAX && nr(0) - free <= 0x4000_0000
    requires free < pages <= INT32_MAX / 2 && nr(k) == Required(nr(0), free, pages)
    ensures var used := nr(0) - free; nr(k) - used == pages
    ensures k != 0
  {
    AccountingFits(nr(0), free);
    assert 2 * pages / 2 == pages;
  }
}
