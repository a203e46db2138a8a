/**
 * The requirement decoder of the graph-database driver
 * (beeflow/common/gdb/neo4j_driver.py, `_reconstruct_requirement`): a flat
 * list `[class1, key1, value1, class2, key2, value2, ...]` of strings becomes
 * a set of requirements whose values are turned back into integers, floats
 * or booleans where they read as such.  Python's `float(s)` is an oracle.
 */
module Requirements {
  import opened Wrappers
  import opened PyText

  datatype ReqValue = IntVal(i: int) | FloatVal(f: real) | BoolVal(b: bool) | StrVal(s: string)

  datatype Requirement = Requirement(reqClass: string, key: string, value: ReqValue)

  /** `float(s)`; `None` stands for the ValueError it raises. */
  type FloatParser = string -> Option<real>

  /**
   * The value coercion: digits first, then float, then the two boolean
   * words; anything else stays the string it was.
   */
  function Coerce(val: string, parseFloat: FloatParser): (r: ReqValue)
    ensures r.IntVal? <==> IsDigits(val)
    ensures r.IntVal? ==> r.i == DigitsValue(val)
    ensures r.FloatVal? <==> !IsDigits(val) && parseFloat(val).Some?
    ensures r.FloatVal? ==> r.f == parseFloat(val).value
    ensures r.BoolVal? <==> !IsDigits(val) && parseFloat(val).None? && (val == "True" || val == "False")
    ensures r.BoolVal? ==> (r.b <==> val == "True")
    ensures r.StrVal? ==> r.s == val
  {
    if IsDigits(val) then IntVal(DigitsValue(val))
    else if parseFloat(val).Some? then FloatVal(parseFloat(val).value)
    else if val == "True" then BoolVal(true)
    else if val == "False" then BoolVal(false)
    else StrVal(val)
  }

  /** The text a boolean or string value is shown as. */
  function Shown(v: ReqValue): Option<string> {
    match v
    case BoolVal(b) => Some(BoolToString(b))
    case StrVal(s) => Some(s)
    case _ => None
  }

  /** An integer written out in decimal comes back as that integer. */
  lemma CoerceNatToString(n: nat, parseFloat: FloatParser)
    ensures Coerce(NatToString(n), parseFloat) == IntVal(n)
  {
    NatToStringValue(n);
  }

  /** A value that is neither integer nor float comes back as the text it was. */
  lemma CoerceKeepsText(val: string, parseFloat: FloatParser)
    requires !IsDigits(val) && parseFloat(val).None?
    ensures Shown(Coerce(val, parseFloat)) == Some(val)
  {
  }

  /** Python's `l[start:stop:3]` for `0 <= start`; a `stop` below `start` gives nothing. */
  function Step3(l: seq<string>, start: nat, stop: int): seq<string>
    decreases |l| - start
  {
    if start < |l| && start < stop then [l[start]] + Step3(l, start + 3, stop) else []
  }

  lemma {:induction false} Step3Elements(l: seq<string>, start: nat, stop: int)
    requires stop <= |l|
    ensures |Step3(l, start, stop)| == if start < stop then (stop - start + 2) / 3 else 0
    ensures forall k :: 0 <= k < |Step3(l, start, stop)| ==> Step3(l, start, stop)[k] == l[start + 3 * k]
    decreases |l| - start
  {
    if start < |l| && start < stop {
      Step3Elements(l, start + 3, stop);
    }
  }

  /** `zip(a, b, c)`: as many triples as the shortest list has elements. */
  function Zip3(a: seq<string>, b: seq<string>, c: seq<string>): (r: seq<(string, string, string)>)
    ensures |r| == Min(|a|, Min(|b|, |c|))
    ensures forall i :: 0 <= i < |r| ==> r[i] == (a[i], b[i], c[i])
  {
    seq(Min(|a|, Min(|b|, |c|)), i requires 0 <= i < Min(|a|, Min(|b|, |c|)) => (a[i], b[i], c[i]))
  }

  function Min(x: int, y: int): int { if x < y then x else y }

  /** `zip(list_repr[:-2:3], list_repr[1:-1:3], list_repr[2::3])`. */
  function Triples(l: seq<string>): seq<(string, string, string)> {
    Zip3(Step3(l, 0, |l| - 2), Step3(l, 1, |l| - 1), Step3(l, 2, |l|))
  }

  /**
   * The triples are the elements at positions 3i, 3i+1 and 3i+2, one per
   * whole group of three: one or two trailing elements are dropped.
   */
  lemma TriplesLayout(l: seq<string>)
    ensures |Triples(l)| == |l| / 3
    ensures forall i :: 0 <= i < |l| / 3 ==> Triples(l)[i] == (l[3 * i], l[3 * i + 1], l[3 * i + 2])
  {
    Step3Elements(l, 0, |l| - 2);
    Step3Elements(l, 1, |l| - 1);
    Step3Elements(l, 2, |l|);
  }

  function Decode(t: (string, string, string), parseFloat: FloatParser): Requirement {
    Requirement(t.0, t.1, Coerce(t.2, parseFloat))
  }

  /** The set the decoder returns. */
  function Reconstructed(l: seq<string>, parseFloat: FloatParser): set<Requirement> {
    set t | t in Triples(l) :: Decode(t, parseFloat)
  }

  lemma ImageSnoc(ts: seq<(string, string, string)>, x: (string, string, string), parseFloat: FloatParser)
    ensures (set t | t in ts + [x] :: Decode(t, parseFloat)) == (set t | t in ts :: Decode(t, parseFloat)) + {Decode(x, parseFloat)}
  {
    assert forall t :: t in ts + [x] <==> t in ts || t == x;
  }

  /** `_reconstruct_requirement`: one `reqs.add` per triple. */
  method ReconstructRequirement(listRepr: seq<string>, parseFloat: FloatParser) returns (reqs: set<Requirement>)
    ensures reqs == Reconstructed(listRepr, parseFloat)
  {
    reqs := {};
    var triples := Triples(listRepr);
    for i := 0 to |triples|
      invariant reqs == set t | t in triples[..i] :: Decode(t, parseFloat)
    {
      var (reqClass, key, val) := triples[i];
      ImageSnoc(triples[..i], triples[i], parseFloat);
      assert triples[..i + 1] == triples[..i] + [triples[i]];
      reqs := reqs + {Requirement(reqClass, key, Coerce(val, parseFloat))};
    }
    assert triples[..|triples|] == triples;
  }

  /** A requirement is in the result exactly when some whole group of three decodes to it. */
  lemma ReconstructedMembers(l: seq<string>, parseFloat: FloatParser, q: Requirement)
    ensures q in Reconstructed(l, parseFloat) <==>
      exists i :: 0 <= i < |l| / 3 && q == Requirement(l[3 * i], l[3 * i + 1], Coerce(l[3 * i + 2], parseFloat))
  {
    TriplesLayout(l);
    if q in Reconstructed(l, parseFloat) {
      var t :| t in Triples(l) && q == Decode(t, parseFloat);
      var i :| 0 <= i < |Triples(l)| && Triples(l)[i] == t;
      assert q == Requirement(l[3 * i], l[3 * i + 1], Coerce(l[3 * i + 2], parseFloat));
    }
    if exists i :: 0 <= i < |l| / 3 && q == Requirement(l[3 * i], l[3 * i + 1], Coerce(l[3 * i + 2], parseFloat)) {
      var i :| 0 <= i < |l| / 3 && q == Requirement(l[3 * i], l[3 * i + 1], Coerce(l[3 * i + 2], parseFloat));
      assert Triples(l)[i] in Triples(l);
    }
  }

  /** Fewer than three strings give the empty set. */
  lemma ReconstructedShort(l: seq<string>, parseFloat: FloatParser)
    requires |l| < 3
    ensures Reconstructed(l, parseFloat) == {}
  {
    TriplesLayout(l);
  }

  /** One or two trailing strings after the last whole group change nothing. */
  lemma ReconstructedIgnoresTail(l: seq<string>, tail: seq<string>, parseFloat: FloatParser)
    requires |l| % 3 == 0 && |tail| < 3
    ensures Reconstructed(l + tail, parseFloat) == Reconstructed(l, parseFloat)
  {
    TriplesLayout(l);
    TriplesLayout(l + tail);
    assert |(l + tail)| / 3 == |l| / 3;
    assert Triples(l + tail) == Triples(l);
  }

  /** Repeating the groups adds nothing: duplicates collapse in the set. */
  lemma ReconstructedRepeated(l: seq<string>, parseFloat: FloatParser)
    requires |l| % 3 == 0
    ensures Reconstructed(l + l, parseFloat) == Reconstructed(l, parseFloat)
  {
    var n := |l| / 3;
    TriplesLayout(l);
    TriplesLayout(l + l);
    forall t | t in Triples(l + l)
      ensures t in Triples(l)
    {
      var i :| 0 <= i < |Triples(l + l)| && Triples(l + l)[i] == t;
      if i >= n {
        assert (l + l)[3 * i] == l[3 * (i - n)];
        assert (l + l)[3 * i + 1] == l[3 * (i - n) + 1];
        assert (l + l)[3 * i + 2] == l[3 * (i - n) + 2];
        assert Triples(l)[i - n] == t;
      } else {
        assert Triples(l)[i] == t;
      }
    }
    forall t | t in Triples(l)
      ensures t in Triples(l + l)
    {
      var i :| 0 <= i < |Triples(l)| && Triples(l)[i] == t;
      assert Triples(l + l)[i] == t;
    }
  }

  /** The result has at most one requirement per group of three. */
  lemma {:induction false} ImageSize(ts: seq<(string, string, string)>, parseFloat: FloatParser)
    ensures |set t | t in ts :: Decode(t, parseFloat)| <= |ts|
  {
    if ts != [] {
      ImageSize(ts[1..], parseFloat);
      var rest := set t | t in ts[1..] :: Decode(t, parseFloat);
      assert (set t | t in ts :: Decode(t, parseFloat)) == rest + {Decode(ts[0], parseFloat)};
    }
  }

  lemma ReconstructedSize(l: seq<string>, parseFloat: FloatParser)
    ensures |Reconstructed(l, parseFloat)| <= |l| / 3
  {
    TriplesLayout(l);
    ImageSize(Triples(l), parseFloat);
  }
}
