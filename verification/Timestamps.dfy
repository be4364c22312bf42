/** How the agent's database orders event times: as text in the layout of Go's `time.RFC3339Nano`, in UTC. Times are
    numbers of nanoseconds within the years of four digits, so the part up to the seconds has a fixed width and sorts
    as its number; the fraction is written without trailing zeros, and left out when it is zero. */
module Timestamps {
  const SECOND: nat := 1_000_000_000

  function Second(at: int): int {
    at / SECOND
  }

  function Fraction(at: int): (r: nat)
    ensures r < SECOND
  {
    at % SECOND
  }

  function Pow10(n: nat): (r: nat)
    ensures r > 0
  {
    if n == 0 then 1 else 10 * Pow10(n - 1)
  }

  lemma NinePlaces()
    ensures Pow10(9) == SECOND
  {
    assert Pow10(3) == 1000;
    assert Pow10(6) == 1000 * Pow10(3);
  }

  /** The first of `places` digits, and the number made of the others. */
  function Lead(f: nat, places: nat): (r: nat)
    requires places > 0 && f < Pow10(places)
    ensures r < 10
  {
    f / Pow10(places - 1)
  }

  function Rest(f: nat, places: nat): (r: nat)
    requires places > 0 && f < Pow10(places)
    ensures r < Pow10(places - 1)
  {
    f % Pow10(places - 1)
  }

  /** The digits of `f` out of `places`, without trailing zeros. */
  function Digits(f: nat, places: nat): (r: string)
    requires f < Pow10(places)
    ensures forall c :: c in r ==> c < 'Z'
    ensures f > 0 ==> r != ""
  {
    if f == 0 then "" else [('0' as int + Lead(f, places)) as char] + Digits(Rest(f, places), places - 1)
  }

  /** The fraction of a second as it is written. */
  function Written(at: int): string {
    NinePlaces();
    Digits(Fraction(at), 9)
  }

  /** What follows the seconds. */
  function Tail(at: int): string {
    (if Fraction(at) == 0 then "" else ".") + Written(at) + "Z"
  }

  /** The order of text: by the first character that differs, a prefix first. */
  predicate TextNotAfter(a: string, b: string) {
    a == "" || (b != "" && (a[0] < b[0] || (a[0] == b[0] && TextNotAfter(a[1..], b[1..]))))
  }

  lemma {:induction false} TextIsTotal(a: string, b: string)
    ensures TextNotAfter(a, b) || TextNotAfter(b, a)
    ensures TextNotAfter(a, b) && TextNotAfter(b, a) ==> a == b
    ensures a == b ==> TextNotAfter(a, b)
  {
    if a != "" && b != "" {
      TextIsTotal(a[1..], b[1..]);
      assert a == [a[0]] + a[1..] && b == [b[0]] + b[1..];
    }
  }

  lemma {:induction false} TextIsTransitive(a: string, b: string, c: string)
    requires TextNotAfter(a, b) && TextNotAfter(b, c)
    ensures TextNotAfter(a, c)
  {
    if a != "" && a[0] == b[0] == c[0] {
      TextIsTransitive(a[1..], b[1..], c[1..]);
    }
  }

  /** `ORDER BY event_at`: no later, as far as the text tells. */
  predicate NotAfter(a: int, b: int) {
    Second(a) < Second(b) || (Second(a) == Second(b) && TextNotAfter(Tail(a), Tail(b)))
  }

  lemma OrderIsTotal(a: int, b: int, c: int)
    ensures NotAfter(a, b) || NotAfter(b, a)
    ensures NotAfter(a, b) && NotAfter(b, c) ==> NotAfter(a, c)
  {
    hide TextNotAfter, Tail;
    var x, y, z := Tail(a), Tail(b), Tail(c);
    TextIsTotal(x, y);
    if TextNotAfter(x, y) && TextNotAfter(y, z) {
      TextIsTransitive(x, y, z);
    }
  }

  lemma TimesGrows(u: nat, a: int, b: int)
    ensures a <= b ==> u * a <= u * b
  {
  }

  lemma LeadDecides(f: nat, g: nat, places: nat)
    requires 0 < places && f < g < Pow10(places)
    ensures Lead(f, places) <= Lead(g, places)
    ensures Lead(f, places) == Lead(g, places) ==> Rest(f, places) < Rest(g, places)
  {
    var u := Pow10(places - 1);
    assert f == u * (f / u) + f % u && g == u * (g / u) + g % u;
    TimesGrows(u, g / u + 1, f / u);
    assert u * (g / u + 1) == u * (g / u) + u;
  }

  lemma SamePrefix(c: char, x: string, y: string)
    ensures [c] + x <= [c] + y <==> x <= y
  {
    assert [c] + x <= [c] + y ==> ([c] + x)[1..] == x && ([c] + y)[1..][..|x|] == x;
  }

  /** Of two fractions the larger sorts first exactly when its digits begin with those of the smaller. */
  lemma {:induction false} LargerFirstIff(f: nat, g: nat, places: nat)
    requires f < g < Pow10(places)
    ensures !TextNotAfter(Digits(f, places) + "Z", Digits(g, places) + "Z") <==> Digits(f, places) <= Digits(g, places)
    decreases places
  {
    hide Lead, Rest;
    var x, y := Digits(f, places), Digits(g, places);
    if f == 0 {
      assert (y + "Z")[0] == y[0] && y[0] in y;
    } else {
      LeadDecides(f, g, places);
      assert (x + "Z")[0] == x[0] && (y + "Z")[0] == y[0];
      if Lead(f, places) == Lead(g, places) {
        var x', y' := Digits(Rest(f, places), places - 1), Digits(Rest(g, places), places - 1);
        LargerFirstIff(Rest(f, places), Rest(g, places), places - 1);
        assert (x + "Z")[1..] == x' + "Z" && (y + "Z")[1..] == y' + "Z";
        assert x == [x[0]] + x' && y == [x[0]] + y';
        SamePrefix(x[0], x', y');
      }
    }
  }

  /** So the order is that of time but within one second, and there it puts the later time first exactly when the
      earlier one's fraction, as it is written, begins the later one's: a whole second comes after all its fractions. */
  lemma LaterSortsFirstIff(a: int, b: int)
    requires a < b
    ensures !NotAfter(a, b) <==> Second(a) == Second(b) && Written(a) <= Written(b)
    ensures NotAfter(b, a) <==> !NotAfter(a, b)
  {
    hide Pow10;
    NinePlaces();
    if Second(a) == Second(b) {
      assert Fraction(a) < Fraction(b);
      LargerFirstIff(Fraction(a), Fraction(b), 9);
      var x, y := Written(a) + "Z", Written(b) + "Z";
      if Fraction(a) == 0 {
        assert Tail(a) == "Z" && Tail(b) == "." + y;
      } else {
        assert Tail(a) == "." + x && Tail(b) == "." + y;
        assert Tail(a)[1..] == x && Tail(b)[1..] == y;
      }
      TextIsTotal(Tail(a), Tail(b));
      assert Tail(a) == Tail(b) ==> x == y;
      assert x[..|x| - 1] == Written(a) && y[..|y| - 1] == Written(b);
    }
  }
}
