/** Ordered maps: keys compare character by character, and iteration visits them in that order. */
module KeyOrder {

  predicate Below(a: string, b: string) {
    if b == "" then false
    else if a == "" then true
    else if a[0] == b[0] then Below(a[1..], b[1..])
    else a[0] < b[0]
  }

  lemma {:induction false} BelowIsStrict(a: string)
    ensures !Below(a, a)
  {
    if a != "" {
      BelowIsStrict(a[1..]);
    }
  }

  lemma {:induction false} BelowChains(a: string, b: string, c: string)
    requires Below(a, b) && Below(b, c)
    ensures Below(a, c)
  {
    if a != "" && a[0] == b[0] == c[0] {
      BelowChains(a[1..], b[1..], c[1..]);
    }
  }

  lemma {:induction false} BelowIsTotal(a: string, b: string)
    ensures a == b || Below(a, b) || Below(b, a)
  {
    if a != "" && b != "" && a[0] == b[0] {
      BelowIsTotal(a[1..], b[1..]);
      assert a == [a[0]] + a[1..] && b == [b[0]] + b[1..];
    }
  }

  predicate IsLeast(s: set<string>, x: string) {
    x in s && forall y :: y in s && y != x ==> Below(x, y)
  }

  lemma {:induction false} LeastExists(s: set<string>)
    requires s != {}
    ensures exists x :: IsLeast(s, x)
    decreases |s|
  {
    var x :| x in s;
    if s == {x} {
      assert IsLeast(s, x);
    } else {
      LeastExists(s - {x});
      var y :| IsLeast(s - {x}, y);
      BelowIsTotal(x, y);
      if Below(x, y) {
        forall z | z in s && z != x ensures Below(x, z) {
          if z != y {
            BelowChains(x, y, z);
          }
        }
        assert IsLeast(s, x);
      } else {
        assert IsLeast(s, y);
      }
    }
  }

  lemma LeastIsUnique(s: set<string>, x: string, y: string)
    requires IsLeast(s, x) && IsLeast(s, y)
    ensures x == y
  {
    if x != y {
      BelowChains(x, y, x);
      BelowIsStrict(x);
    }
  }

  /** The keys in the order in which an ordered map visits them. */
  ghost function Listing(s: set<string>): (r: seq<string>)
    ensures |r| == |s|
    decreases |s|
  {
    if s == {} then []
    else
      LeastExists(s);
      var x :| IsLeast(s, x);
      [x] + Listing(s - {x})
  }

  lemma ListingUnfolds(s: set<string>, x: string)
    requires IsLeast(s, x)
    ensures Listing(s) == [x] + Listing(s - {x})
  {
    LeastExists(s);
    var y := Listing(s)[0];
    assert IsLeast(s, y);
    LeastIsUnique(s, x, y);
  }

  lemma {:induction false} ListingHas(s: set<string>, y: string)
    ensures y in Listing(s) <==> y in s
    decreases |s|
  {
    if s != {} {
      LeastExists(s);
      var x :| IsLeast(s, x);
      ListingUnfolds(s, x);
      ListingHas(s - {x}, y);
    }
  }

  lemma {:induction false} ListingAscends(s: set<string>, i: nat, j: nat)
    requires i < j < |s|
    ensures Below(Listing(s)[i], Listing(s)[j]) && Listing(s)[i] != Listing(s)[j]
    decreases |s|
  {
    LeastExists(s);
    var x :| IsLeast(s, x);
    ListingUnfolds(s, x);
    var rest := Listing(s - {x});
    if i == 0 {
      ListingHas(s - {x}, rest[j - 1]);
    } else {
      ListingAscends(s - {x}, i - 1, j - 1);
    }
  }

  ghost predicate Ascending(keys: seq<string>) {
    forall i, j :: 0 <= i < j < |keys| ==> Below(keys[i], keys[j]) && keys[i] != keys[j]
  }

  /** A listing has exactly the keys, each once, in increasing order. */
  lemma ListingOk(s: set<string>)
    ensures forall x :: x in Listing(s) <==> x in s
    ensures Ascending(Listing(s))
  {
    forall x ensures x in Listing(s) <==> x in s {
      ListingHas(s, x);
    }
    forall i, j | 0 <= i < j < |Listing(s)|
      ensures Below(Listing(s)[i], Listing(s)[j]) && Listing(s)[i] != Listing(s)[j]
    {
      ListingAscends(s, i, j);
    }
  }

  /** The next key of an iteration over what remains. */
  method Next(rest: set<string>) returns (x: string)
    requires rest != {}
    ensures IsLeast(rest, x) && Listing(rest) == [x] + Listing(rest - {x})
  {
    LeastExists(rest);
    x :| IsLeast(rest, x);
    ListingUnfolds(rest, x);
  }
}
