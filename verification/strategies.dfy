/** Joint strategies of the four seats. A joint strategy is the 14-tuple of
    pushing ranges in the order the searches use as map key: co, de, de_co,
    sb, sb_co, sb_de, sb_co_de, bb_co, bb_de, bb_sb, bb_co_de, bb_co_sb,
    bb_de_sb, bb_co_de_sb. Each seat owns a contiguous slice of it. The
    candidate ranges for the fourteen positions are lists, and the searches
    enumerate their cartesian product in nested-loop order. */
module Strategies {

  const KeyLength: nat := 14

  type Strategy = s: seq<int> | |s| == KeyLength
    witness [0, 0, 0, 0, 0, 0, 0, 0, 0, 0, 0, 0, 0, 0]

  /** The four values co, de, sb, bb in seat order. */
  type Expectancy = e: seq<real> | |e| == 4 witness [0.0, 0.0, 0.0, 0.0]

  datatype Seat = CO | DE | SB | BB

  const Seats: seq<Seat> := [CO, DE, SB, BB]

  /** Position of the seat's value in an Expectancy. */
  function SeatIndex(seat: Seat): (i: nat)
    ensures i < 4 && Seats[i] == seat
  {
    match seat
    case CO => 0
    case DE => 1
    case SB => 2
    case BB => 3
  }

  /** The seat's slice of the key is [Lo(seat), Hi(seat)): CO owns co; DE owns
      de, de_co; SB owns sb, sb_co, sb_de, sb_co_de; BB owns the seven bb_*
      ranges. */
  function Lo(seat: Seat): nat
  {
    match seat
    case CO => 0
    case DE => 1
    case SB => 3
    case BB => 7
  }

  function Hi(seat: Seat): (h: nat)
    ensures Lo(seat) < h <= KeyLength
  {
    match seat
    case CO => 1
    case DE => 3
    case SB => 7
    case BB => 14
  }

  /** The seat's private key: the part of the joint strategy the seat chooses. */
  function Project(p: seq<int>, seat: Seat): (k: seq<int>)
    requires |p| == KeyLength
    ensures |k| == Hi(seat) - Lo(seat)
  {
    p[Lo(seat)..Hi(seat)]
  }

  /** The joint strategy with the seat's slice replaced by `alt`. */
  function Deviate(p: Strategy, seat: Seat, alt: seq<int>): (q: Strategy)
    requires |alt| == Hi(seat) - Lo(seat)
    ensures Project(q, seat) == alt
    ensures forall i :: 0 <= i < KeyLength && !(Lo(seat) <= i < Hi(seat)) ==> q[i] == p[i]
  {
    p[..Lo(seat)] + alt + p[Hi(seat)..]
  }

  /** Replacing a seat's slice by what it already holds changes nothing. */
  lemma DeviateToOwn(p: Strategy, seat: Seat)
    ensures Deviate(p, seat, Project(p, seat)) == p
  {
    assert p == p[..Lo(seat)] + p[Lo(seat)..Hi(seat)] + p[Hi(seat)..];
  }

  /** `t` picks one candidate from each list. */
  predicate IsChoice(t: seq<int>, lists: seq<seq<int>>)
  {
    |t| == |lists| && forall i :: 0 <= i < |t| ==> t[i] in lists[i]
  }

  /** `[x] + tail` for every tail, in order. */
  function Prepend(x: int, tails: seq<seq<int>>): (r: seq<seq<int>>)
    ensures |r| == |tails| && forall i :: 0 <= i < |tails| ==> r[i] == [x] + tails[i]
  {
    seq(|tails|, i requires 0 <= i < |tails| => [x] + tails[i])
  }

  lemma PrependMembership(x: int, tails: seq<seq<int>>, t: seq<int>)
    ensures t in Prepend(x, tails) <==> |t| > 0 && t[0] == x && t[1..] in tails
  {
    if |t| > 0 && t[0] == x && t[1..] in tails {
      var i :| 0 <= i < |tails| && tails[i] == t[1..];
      assert Prepend(x, tails)[i] == t;
    }
  }

  /** Every tuple `[x] + tail`, for x in `heads` (outer) and tail in `tails`
      (inner). */
  function Extend(heads: seq<int>, tails: seq<seq<int>>): (r: seq<seq<int>>)
    ensures forall t :: t in r <==> |t| > 0 && t[0] in heads && t[1..] in tails
  {
    if heads == [] then []
    else
      assert forall t :: t in Prepend(heads[0], tails) <==> |t| > 0 && t[0] == heads[0] && t[1..] in tails by {
        forall t { PrependMembership(heads[0], tails, t); }
      }
      Prepend(heads[0], tails) + Extend(heads[1..], tails)
  }

  /** The cartesian product of the lists, enumerated as nested loops whose
      outermost loop runs over the first list. */
  function Product(lists: seq<seq<int>>): (r: seq<seq<int>>)
    ensures forall t :: t in r ==> |t| == |lists|
  {
    if lists == [] then [[]] else Extend(lists[0], Product(lists[1..]))
  }

  lemma ChoiceCons(t: seq<int>, lists: seq<seq<int>>)
    requires |t| > 0 && |lists| > 0
    ensures IsChoice(t, lists) <==> t[0] in lists[0] && IsChoice(t[1..], lists[1..])
  {
    if t[0] in lists[0] && IsChoice(t[1..], lists[1..]) {
      forall i | 0 <= i < |t| ensures t[i] in lists[i] {
        if i > 0 { assert t[i] == t[1..][i - 1]; }
      }
    }
  }

  /** The product holds exactly the choices of one candidate per list. */
  lemma {:induction false} ProductMembership(lists: seq<seq<int>>, t: seq<int>)
    ensures t in Product(lists) <==> IsChoice(t, lists)
  {
    if lists == [] {
      assert Product(lists) == [[]];
    } else if |t| > 0 {
      ProductMembership(lists[1..], t[1..]);
      ChoiceCons(t, lists);
    }
  }

  /** The two directions of ProductMembership, as separate steps. */
  lemma ChoiceInProduct(lists: seq<seq<int>>, t: seq<int>)
    requires IsChoice(t, lists)
    ensures t in Product(lists)
  {
    ProductMembership(lists, t);
  }

  lemma ProductIsChoice(lists: seq<seq<int>>, t: seq<int>)
    requires t in Product(lists)
    ensures IsChoice(t, lists)
  {
    ProductMembership(lists, t);
  }

  lemma SliceIsChoice(t: seq<int>, lists: seq<seq<int>>, lo: nat, hi: nat)
    requires IsChoice(t, lists) && lo <= hi <= |lists|
    ensures IsChoice(t[lo..hi], lists[lo..hi])
  {
    forall i | 0 <= i < hi - lo ensures t[lo..hi][i] in lists[lo..hi][i] {
      assert t[lo..hi][i] == t[lo + i] && lists[lo..hi][i] == lists[lo + i];
    }
  }

  lemma SpliceIsChoice(t: seq<int>, alt: seq<int>, lists: seq<seq<int>>, lo: nat, hi: nat)
    requires IsChoice(t, lists) && lo <= hi <= |lists| && IsChoice(alt, lists[lo..hi])
    ensures IsChoice(t[..lo] + alt + t[hi..], lists)
  {
    var q := t[..lo] + alt + t[hi..];
    forall i | 0 <= i < |q| ensures q[i] in lists[i] {
      if i < lo {
        assert q[i] == t[i];
      } else if i < hi {
        assert q[i] == alt[i - lo] && lists[lo..hi][i - lo] == lists[i];
      } else {
        assert q[i] == t[i];
      }
    }
  }

  /** The seat's private key of a joint strategy in the product lies in the
      product of the seat's own lists. */
  lemma ProjectInProduct(lists: seq<seq<int>>, p: seq<int>, seat: Seat)
    requires |lists| == KeyLength && p in Product(lists)
    ensures Project(p, seat) in Product(lists[Lo(seat)..Hi(seat)])
  {
    ProductIsChoice(lists, p);
    SliceIsChoice(p, lists, Lo(seat), Hi(seat));
    ChoiceInProduct(lists[Lo(seat)..Hi(seat)], Project(p, seat));
  }

  /** Replacing a seat's slice of a joint strategy in the product by a key
      from the seat's own product stays in the product. */
  lemma DeviateInProduct(lists: seq<seq<int>>, p: Strategy, seat: Seat, alt: seq<int>)
    requires |lists| == KeyLength && p in Product(lists)
    requires alt in Product(lists[Lo(seat)..Hi(seat)])
    ensures |alt| == Hi(seat) - Lo(seat)
    ensures Deviate(p, seat, alt) in Product(lists)
  {
    ProductIsChoice(lists, p);
    ProductIsChoice(lists[Lo(seat)..Hi(seat)], alt);
    SpliceIsChoice(p, alt, lists, Lo(seat), Hi(seat));
    ChoiceInProduct(lists, Deviate(p, seat, alt));
  }

  /** The private keys of a seat: every choice from the seat's own lists, in
      nested-loop order. */
  function SeatKeys(lists: seq<seq<int>>, seat: Seat): seq<seq<int>>
    requires |lists| == KeyLength
  {
    Product(lists[Lo(seat)..Hi(seat)])
  }

  /** Every joint strategy's private key for `seat` is one of `keys`. */
  predicate Covers(points: seq<seq<int>>, keys: seq<seq<int>>, seat: Seat)
  {
    forall i :: 0 <= i < |points| ==> |points[i]| == KeyLength && Project(points[i], seat) in keys
  }

  /** The private keys the nested loops visit are exactly the seat's keys. */
  lemma ProductCovers(lists: seq<seq<int>>, seat: Seat)
    requires |lists| == KeyLength
    ensures Covers(Product(lists), SeatKeys(lists, seat), seat)
  {
    var points := Product(lists);
    forall i | 0 <= i < |points|
      ensures |points[i]| == KeyLength && Project(points[i], seat) in SeatKeys(lists, seat)
    {
      ProjectInProduct(lists, points[i], seat);
    }
  }

  /** Every alternative has the length of the seat's slice. */
  predicate Fits(alts: seq<seq<int>>, seat: Seat)
  {
    forall i :: 0 <= i < |alts| ==> |alts[i]| == Hi(seat) - Lo(seat)
  }

  lemma SeatKeysFit(lists: seq<seq<int>>, seat: Seat)
    requires |lists| == KeyLength
    ensures Fits(SeatKeys(lists, seat), seat)
  {
    var keys := SeatKeys(lists, seat);
    forall i | 0 <= i < |keys| ensures |keys[i]| == Hi(seat) - Lo(seat) {
      assert keys[i] in keys;
    }
  }

  /** std::vector's operator<: lexicographic, a proper prefix first. This is
      the order in which std::map visits its keys. */
  predicate LexLess(a: seq<int>, b: seq<int>)
  {
    if a == [] then b != []
    else if b == [] then false
    else a[0] < b[0] || (a[0] == b[0] && LexLess(a[1..], b[1..]))
  }

  lemma {:induction false} LexLessIrreflexive(a: seq<int>)
    ensures !LexLess(a, a)
  {
    if a != [] {
      LexLessIrreflexive(a[1..]);
    }
  }

  lemma {:induction false} LexLessTransitive(a: seq<int>, b: seq<int>, c: seq<int>)
    requires LexLess(a, b) && LexLess(b, c)
    ensures LexLess(a, c)
  {
    if a != [] && a[0] == b[0] && b[0] == c[0] {
      LexLessTransitive(a[1..], b[1..], c[1..]);
    }
  }

  lemma {:induction false} LexLessTotal(a: seq<int>, b: seq<int>)
    requires a != b
    ensures LexLess(a, b) || LexLess(b, a)
  {
    if a != [] && b != [] && a[0] == b[0] {
      assert a == [a[0]] + a[1..] && b == [b[0]] + b[1..];
      LexLessTotal(a[1..], b[1..]);
    }
  }

  /** `k` comes before every other member of `keys`. */
  predicate IsLexFirst(k: seq<int>, keys: set<seq<int>>)
  {
    k in keys && forall j :: j in keys && j != k ==> LexLess(k, j)
  }

  /** Every finite non-empty set of keys has a lexicographically first member. */
  lemma {:induction false} LexFirstExists(keys: set<seq<int>>)
    requires keys != {}
    ensures exists k :: IsLexFirst(k, keys)
    decreases |keys|
  {
    var x :| x in keys;
    var rest := keys - {x};
    if rest == {} {
      assert keys == {x};
      assert IsLexFirst(x, keys);
    } else {
      LexFirstExists(rest);
      var y :| IsLexFirst(y, rest);
      LexLessTotal(x, y);
      if LexLess(x, y) {
        forall j | j in keys && j != x ensures LexLess(x, j) {
          if j != y { LexLessTransitive(x, y, j); }
        }
        assert IsLexFirst(x, keys);
      } else {
        assert IsLexFirst(y, keys);
      }
    }
  }
}
