/**
 The order in which the runtime's ordered maps and sets of execution ids are
 walked.  The keys are strings `execution-N`, so `execution-10` precedes
 `execution-9`: the order is that of the decimal numerals, not of creation.
 */
module IdOrder {
  function Decimal(n: nat): string {
    if n < 10 then [Digit(n)] else Decimal(n / 10) + [Digit(n % 10)]
  }

  function Digit(n: nat): char
    requires n < 10
  {
    '0' + n as char
  }

  predicate StringBefore(s: string, t: string) {
    if t == "" then false
    else if s == "" then true
    else s[0] < t[0] || (s[0] == t[0] && StringBefore(s[1..], t[1..]))
  }

  /** Whether `execution-a` sorts before `execution-b`. */
  predicate IdBefore(a: nat, b: nat) {
    StringBefore(Decimal(a), Decimal(b))
  }

  function Value(s: string): int {
    if s == "" then 0 else Value(s[..|s| - 1]) * 10 + (s[|s| - 1] as int - '0' as int)
  }

  lemma {:induction false} DecimalDenotes(n: nat)
    ensures Value(Decimal(n)) == n
  {
    if n < 10 {
      assert Decimal(n)[..0] == "";
    } else {
      DecimalDenotes(n / 10);
      assert Decimal(n)[..|Decimal(n)| - 1] == Decimal(n / 10);
    }
  }

  lemma {:induction false} StringOrderIsTotal(s: string, t: string)
    ensures s != t ==> StringBefore(s, t) || StringBefore(t, s)
    ensures !(StringBefore(s, t) && StringBefore(t, s))
    ensures !StringBefore(s, s)
  {
    if s != "" {
      StringOrderIsTotal(s[1..], s[1..]);
      if t != "" {
        StringOrderIsTotal(s[1..], t[1..]);
        if s[0] == t[0] && s[1..] == t[1..] {
          assert s == [s[0]] + s[1..] == t;
        }
      }
    }
  }

  lemma {:induction false} StringOrderIsTransitive(s: string, t: string, u: string)
    requires StringBefore(s, t) && StringBefore(t, u)
    ensures StringBefore(s, u)
  {
    if s != "" && s[0] == t[0] == u[0] {
      StringOrderIsTransitive(s[1..], t[1..], u[1..]);
    }
  }

  /** Execution ids are walked in a strict total order. */
  lemma IdOrderIsTotal(a: nat, b: nat, c: nat)
    ensures !IdBefore(a, a)
    ensures a != b ==> IdBefore(a, b) || IdBefore(b, a)
    ensures !(IdBefore(a, b) && IdBefore(b, a))
    ensures IdBefore(a, b) && IdBefore(b, c) ==> IdBefore(a, c)
  {
    DecimalDenotes(a);
    DecimalDenotes(b);
    StringOrderIsTotal(Decimal(a), Decimal(b));
    StringOrderIsTotal(Decimal(a), Decimal(a));
    if IdBefore(a, b) && IdBefore(b, c) {
      StringOrderIsTransitive(Decimal(a), Decimal(b), Decimal(c));
    }
  }

  /** Creation order and map order disagree. */
  lemma CreationOrderIsNotMapOrder()
    ensures IdBefore(10, 11) && IdBefore(11, 9) && IdBefore(10, 9) && !IdBefore(9, 10)
  {
    assert Decimal(10) == "10" && Decimal(11) == "11" && Decimal(9) == "9";
    IdOrderIsTotal(9, 10, 9);
  }

  /** `id` is the entry of `s` that an iterator yields first. */
  predicate IsFirst(id: nat, s: set<nat>) {
    id in s && forall other :: other in s && other != id ==> IdBefore(id, other)
  }

  lemma {:induction false} FirstExists(s: set<nat>)
    requires s != {}
    ensures exists id :: id in s && IsFirst(id, s)
    decreases |s|
  {
    var x :| x in s;
    if s == {x} {
      assert IsFirst(x, s);
    } else {
      FirstExists(s - {x});
      var y :| y in s - {x} && IsFirst(y, s - {x});
      IdOrderIsTotal(x, y, y);
      if IdBefore(y, x) {
        assert IsFirst(y, s);
      } else {
        forall other | other in s && other != x
          ensures IdBefore(x, other)
        {
          IdOrderIsTotal(x, y, other);
        }
        assert IsFirst(x, s);
      }
    }
  }

  lemma FirstIsUnique(a: nat, b: nat, s: set<nat>)
    requires IsFirst(a, s) && IsFirst(b, s)
    ensures a == b
  {
    IdOrderIsTotal(a, b, a);
  }

  ghost function First(s: set<nat>): (id: nat)
    requires s != {}
    ensures IsFirst(id, s)
  {
    FirstExists(s);
    var id :| id in s && IsFirst(id, s);
    id
  }
}
