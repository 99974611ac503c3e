/** The masking strategies of the `masking` crate: how a secret value is rendered when it is
    formatted for diagnostics. Each strategy writes into a formatter through successive
    `write_str` calls joined by `?`, so the first refused write ends the rendering with its error. */
module Masking {

  import opened Wrappers

  /** std::fmt::Result: `Ok(())` or `Err(fmt::Error)`. */
  datatype FmtResult = Ok | Err

  /** The three formatting policies. */
  datatype Strategy = WithType | WithoutType | NoMasking

  const MaskOpen: string := "*** "
  const MaskClose: string := " ***"
  const BareMask: string := "*** ***"

  /** What `WithType` renders for a value whose type is called `typeName`: the name between the
      two mask markers, recoverable from the text and nothing else. */
  function TypeMask(typeName: string): (s: string)
    ensures |s| == |typeName| + 8
    ensures s[..4] == MaskOpen && s[|s| - 4..] == MaskClose
    ensures s[4..|s| - 4] == typeName
  {
    MaskOpen + typeName + MaskClose
  }

  /** What a strategy renders on success, given the value's type name and its Display text. */
  function Masked(strategy: Strategy, typeName: string, display: string): string
  {
    match strategy
    case WithType => TypeMask(typeName)
    case WithoutType => BareMask
    case NoMasking => display
  }

  /** The strings each strategy hands to `write_str`, in order; together they are its rendering. */
  function Parts(strategy: Strategy, typeName: string, display: string): (parts: seq<string>)
    ensures Concat(parts) == Masked(strategy, typeName, display)
  {
    match strategy
    case WithType =>
      assert Concat([MaskClose]) == MaskClose;
      assert Concat([typeName, MaskClose]) == typeName + MaskClose;
      [MaskOpen, typeName, MaskClose]
    case WithoutType =>
      assert Concat([BareMask]) == BareMask;
      [BareMask]
    case NoMasking =>
      assert Concat([display]) == display;
      [display]
  }

  /** Reads a `WithType` rendering back: the type name it reveals, or None for any text that is
      not of that form. */
  function ParseTypeMask(s: string): (name: Option<string>)
    ensures name.Some? ==> TypeMask(name.value) == s
  {
    if |s| >= 8 && s[..4] == MaskOpen && s[|s| - 4..] == MaskClose then
      assert s == s[..4] + s[4..|s| - 4] + s[|s| - 4..];
      Some(s[4..|s| - 4])
    else None
  }

  /** The text a sink holding `buf` ends with after the writes `parts` are tried in turn, and the
      chain's result: a write succeeds when the text still fits in `capacity` characters and
      appends its string; the first write that does not fit appends nothing and ends the chain
      with `Err`, so no later part is tried. This is the meaning of `a?; b?; c` over `write_str`. */
  function WriteChain(buf: string, capacity: nat, parts: seq<string>): (string, FmtResult)
    decreases |parts|
  {
    if parts == [] then (buf, Ok)
    else if |buf| + |parts[0]| <= capacity then WriteChain(buf + parts[0], capacity, parts[1..])
    else (buf, Err)
  }

  /** The parts concatenated. */
  function Concat(parts: seq<string>): string
    decreases |parts|
  {
    if parts == [] then [] else parts[0] + Concat(parts[1..])
  }

  /** On a sink that is within its capacity, a chain of writes succeeds exactly when everything
      it writes fits, and then it has appended every part, in order. */
  lemma {:induction false} WriteChainOk(buf: string, capacity: nat, parts: seq<string>)
    requires |buf| <= capacity
    ensures WriteChain(buf, capacity, parts).1 == Ok <==> |buf| + |Concat(parts)| <= capacity
    ensures WriteChain(buf, capacity, parts).1 == Ok ==>
              WriteChain(buf, capacity, parts).0 == buf + Concat(parts)
    decreases |parts|
  {
    if parts != [] {
      var first, rest := parts[0], parts[1..];
      assert Concat(parts) == first + Concat(rest);
      if |buf| + |first| <= capacity {
        assert WriteChain(buf, capacity, parts) == WriteChain(buf + first, capacity, rest);
        WriteChainOk(buf + first, capacity, rest);
        assert buf + first + Concat(rest) == buf + Concat(parts);
      } else {
        assert WriteChain(buf, capacity, parts) == (buf, Err);
        assert |Concat(parts)| == |first| + |Concat(rest)|;
      }
    }
  }

  /** A failed chain stops at the refused write: what it leaves is the text before the chain
      followed by the parts before the refused one, and the refused part did not fit. */
  lemma {:induction false} WriteChainStops(buf: string, capacity: nat, parts: seq<string>)
    requires WriteChain(buf, capacity, parts).1 == Err
    ensures exists k :: 0 <= k < |parts| &&
              WriteChain(buf, capacity, parts).0 == buf + Concat(parts[..k]) &&
              |buf + Concat(parts[..k])| + |parts[k]| > capacity
    decreases |parts|
  {
    var out := WriteChain(buf, capacity, parts).0;
    if |buf| + |parts[0]| > capacity {
      assert parts[..0] == [];
      assert out == buf + Concat(parts[..0]);
    } else {
      var rest := parts[1..];
      WriteChainStops(buf + parts[0], capacity, rest);
      var j :| 0 <= j < |rest| && out == buf + parts[0] + Concat(rest[..j]) &&
               |buf + parts[0] + Concat(rest[..j])| + |rest[j]| > capacity;
      assert parts[..j + 1][1..] == rest[..j];
      assert Concat(parts[..j + 1]) == parts[0] + Concat(rest[..j]);
      assert out == buf + Concat(parts[..j + 1]) && parts[j + 1] == rest[j];
    }
  }

  /** A chain of three writes, spelled out: it stops at the first of them that does not fit. */
  lemma WriteChainOfThree(buf: string, capacity: nat, a: string, b: string, c: string)
    ensures WriteChain(buf, capacity, [a, b, c]) ==
      if |buf| + |a| > capacity then (buf, Err)
      else if |buf| + |a| + |b| > capacity then (buf + a, Err)
      else if |buf| + |a| + |b| + |c| > capacity then (buf + a + b, Err)
      else (buf + a + b + c, Ok)
  {
    assert [a, b, c][0] == a && [a, b, c][1..] == [b, c];
    assert [b, c][0] == b && [b, c][1..] == [c];
    assert [c][0] == c && [c][1..] == [];
    if |buf| + |a| <= capacity {
      assert WriteChain(buf, capacity, [a, b, c]) == WriteChain(buf + a, capacity, [b, c]);
      if |buf + a| + |b| <= capacity {
        assert WriteChain(buf + a, capacity, [b, c]) == WriteChain(buf + a + b, capacity, [c]);
        if |buf + a + b| + |c| <= capacity {
          assert WriteChain(buf + a + b, capacity, [c]) == WriteChain(buf + a + b + c, capacity, []);
        }
      }
    }
  }

  /** The text a sink holds never grows past its capacity, whatever is written. */
  lemma {:induction false} WriteChainBounded(buf: string, capacity: nat, parts: seq<string>)
    requires |buf| <= capacity
    ensures |WriteChain(buf, capacity, parts).0| <= capacity
    ensures |buf| <= |WriteChain(buf, capacity, parts).0|
    ensures WriteChain(buf, capacity, parts).0[..|buf|] == buf
    decreases |parts|
  {
    if parts != [] && |buf| + |parts[0]| <= capacity {
      WriteChainBounded(buf + parts[0], capacity, parts[1..]);
      var out := WriteChain(buf, capacity, parts).0;
      assert out[..|buf|] == (out[..|buf + parts[0]|])[..|buf|];
    }
  }

  /** `WithType` renders only the type name: two values of one type render identically, and
      so do `WithoutType` renderings of any two values whatever their type. */
  lemma MaskedIgnoresValue(strategy: Strategy, typeName: string, otherType: string,
                           display1: string, display2: string)
    requires strategy != NoMasking
    ensures Masked(strategy, typeName, display1) == Masked(strategy, typeName, display2)
    ensures strategy == WithoutType ==>
              Masked(strategy, typeName, display1) == Masked(strategy, otherType, display2)
  {
  }

  /** Distinct type names give distinct `WithType` renderings, and the name is read back. */
  lemma TypeMaskRoundTrip(typeName: string)
    ensures ParseTypeMask(TypeMask(typeName)) == Some(typeName)
  {
    var s := TypeMask(typeName);
    assert |s| >= 8 && s[..4] == MaskOpen && s[|s| - 4..] == MaskClose;
  }

  /** A formatter over a sink of bounded size. `write_str` appends a string when it fits and
      fails with `fmt::Error`, appending nothing, when it does not. */
  class Formatter {
    /** Everything written so far. */
    var buf: string
    /** How many characters the sink accepts in all. */
    const capacity: nat

    ghost predicate Valid()
      reads this
    {
      |buf| <= capacity
    }

    constructor (capacity: nat)
      ensures Valid() && buf == [] && this.capacity == capacity
    {
      buf := [];
      this.capacity := capacity;
    }

    /** fmt::Formatter::write_str. */
    method WriteStr(s: string) returns (r: FmtResult)
      requires Valid()
      modifies this
      ensures Valid()
      ensures r == Ok <==> |old(buf)| + |s| <= capacity
      ensures buf == if r == Ok then old(buf) + s else old(buf)
    {
      if |buf| + |s| <= capacity {
        buf := buf + s;
        r := Ok;
      } else {
        r := Err;
      }
    }
  }

  /** `<WithType as Strategy<T>>::fmt`: writes "*** ", the type name and " ***", giving up at
      the first refused write. The value itself is never read. */
  method FmtWithType<T>(value: T, typeName: string, f: Formatter) returns (r: FmtResult)
    requires f.Valid()
    modifies f
    ensures f.Valid()
    ensures (f.buf, r) == WriteChain(old(f.buf), f.capacity, [MaskOpen, typeName, MaskClose])
    ensures r == Ok <==> |old(f.buf)| + |typeName| + 8 <= f.capacity
    ensures r == Ok ==> f.buf == old(f.buf) + TypeMask(typeName)
    ensures |old(f.buf)| + 4 > f.capacity ==> f.buf == old(f.buf)
    ensures |old(f.buf)| + 4 <= f.capacity < |old(f.buf)| + 4 + |typeName| ==>
              f.buf == old(f.buf) + MaskOpen
    ensures |old(f.buf)| + 4 + |typeName| <= f.capacity < |old(f.buf)| + 8 + |typeName| ==>
              f.buf == old(f.buf) + MaskOpen + typeName
  {
    WriteChainOfThree(f.buf, f.capacity, MaskOpen, typeName, MaskClose);
    ghost var before := f.buf;
    r := f.WriteStr(MaskOpen);
    if r == Err { return; }
    r := f.WriteStr(typeName);
    if r == Err { return; }
    r := f.WriteStr(MaskClose);
    assert before + MaskOpen + typeName + MaskClose == before + TypeMask(typeName);
  }

  /** `<WithoutType as Strategy<T>>::fmt`: writes "*** ***" in one call; neither the value nor
      its type shows. */
  method FmtWithoutType<T>(value: T, f: Formatter) returns (r: FmtResult)
    requires f.Valid()
    modifies f
    ensures f.Valid()
    ensures (f.buf, r) == WriteChain(old(f.buf), f.capacity, [BareMask])
    ensures r == Ok <==> |old(f.buf)| + 7 <= f.capacity
    ensures f.buf == if r == Ok then old(f.buf) + BareMask else old(f.buf)
  {
    r := f.WriteStr(BareMask);
  }

  /** `<NoMasking as Strategy<T>>::fmt` for a type with Display: writes the value's Display
      text, `format!("{}", val)`, given here as `show(value)`. */
  method FmtNoMasking<T>(value: T, show: T -> string, f: Formatter) returns (r: FmtResult)
    requires f.Valid()
    modifies f
    ensures f.Valid()
    ensures (f.buf, r) == WriteChain(old(f.buf), f.capacity, [show(value)])
    ensures r == Ok <==> |old(f.buf)| + |show(value)| <= f.capacity
    ensures f.buf == if r == Ok then old(f.buf) + show(value) else old(f.buf)
  {
    r := f.WriteStr(show(value));
  }

  /** `Strategy::<T>::fmt` resolved for the chosen strategy: the strategy's writes are tried in
      turn as a `?`-chain; on success the formatter has gained exactly the strategy's rendering,
      on failure a proper prefix of it. */
  method Fmt<T>(strategy: Strategy, value: T, typeName: string, show: T -> string, f: Formatter)
      returns (r: FmtResult)
    requires f.Valid()
    modifies f
    ensures f.Valid()
    ensures (f.buf, r) == WriteChain(old(f.buf), f.capacity, Parts(strategy, typeName, show(value)))
    ensures r == Ok <==> |old(f.buf)| + |Masked(strategy, typeName, show(value))| <= f.capacity
    ensures r == Ok ==> f.buf == old(f.buf) + Masked(strategy, typeName, show(value))
    ensures r == Err ==> exists n :: (0 <= n < |Masked(strategy, typeName, show(value))| &&
              f.buf == old(f.buf) + Masked(strategy, typeName, show(value))[..n])
  {
    ghost var before := f.buf;
    ghost var m := Masked(strategy, typeName, show(value));
    match strategy
    case WithType =>
      r := FmtWithType(value, typeName, f);
      if r == Err {
        if |before| + 4 > f.capacity {
          assert f.buf == before + m[..0];
        } else if |before| + 4 + |typeName| > f.capacity {
          assert f.buf == before + m[..4];
        } else {
          assert m[..4 + |typeName|] == MaskOpen + typeName;
          assert f.buf == before + m[..4 + |typeName|];
        }
      }
    case WithoutType =>
      r := FmtWithoutType(value, f);
      if r == Err {
        assert f.buf == before + m[..0];
      }
    case NoMasking =>
      r := FmtNoMasking(value, show, f);
      if r == Err {
        assert |m| > 0;
        assert f.buf == before + m[..0];
      }
  }
}
