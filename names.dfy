/** The symbolic names a pass listing gives to its bindings (ShaderConverter.cs,
    lines 151-220 and 257-261): texture registers `tN`, constant-buffer
    registers `cbN[..]` derived from packed byte offsets, and the name table
    that turns name indices back into identifiers. */
module NameResolver {
  import opened Base
  import opened Text

  // ----- C# integer arithmetic -----

  /** C#'s `/` on int: the quotient truncated toward zero. */
  function CsDiv(a: int, b: int): (q: int)
    requires b > 0
    ensures a >= 0 ==> q == a / b
  {
    if a >= 0 then a / b else -((-a) / b)
  }

  /** C#'s `%` on int: the remainder takes the sign of the dividend. */
  function CsRem(a: int, b: int): (r: int)
    requires b > 0
    ensures a >= 0 ==> r == a % b
    ensures -b < r < b
  {
    a - b * CsDiv(a, b)
  }

  // ----- the name table -----

  /** `dic[i.Value] = i.Key` over a pass's name indices: a later pair with the
      same index replaces an earlier one. */
  function NameMap(indices: seq<(string, int)>): map<int, string>
  {
    if indices == [] then map[]
    else NameMap(indices[..|indices| - 1])[indices[|indices| - 1].1 := indices[|indices| - 1].0]
  }

  /** An index is named exactly when some pair carries it, and it is named by
      the last such pair. */
  lemma {:induction false} NameMapLookup(indices: seq<(string, int)>, k: nat)
    requires k < |indices| && forall j :: k < j < |indices| ==> indices[j].1 != indices[k].1
    ensures indices[k].1 in NameMap(indices) && NameMap(indices)[indices[k].1] == indices[k].0
    decreases |indices|
  {
    if k < |indices| - 1 {
      var front := indices[..|indices| - 1];
      assert front[k] == indices[k];
      NameMapLookup(front, k);
    }
  }

  lemma {:induction false} NameMapDomain(indices: seq<(string, int)>, i: int)
    ensures i in NameMap(indices) <==> exists k :: 0 <= k < |indices| && indices[k].1 == i
    decreases |indices|
  {
    if indices != [] {
      var front := indices[..|indices| - 1];
      NameMapDomain(front, i);
      if i in NameMap(front) {
        var k :| 0 <= k < |front| && front[k].1 == i;
        assert indices[k].1 == i;
      }
      if exists k :: 0 <= k < |indices| && indices[k].1 == i {
        var k :| 0 <= k < |indices| && indices[k].1 == i;
        if k < |front| {
          assert front[k].1 == i;
        }
      }
    }
  }

  // ----- parameter records -----

  /** A texture, vector, matrix or buffer-binding parameter: the name index and
      the packed index (a register, or a byte offset inside a buffer). */
  datatype Param = Param(nameIndex: int, index: int)

  datatype ConstantBuffer = ConstantBuffer(nameIndex: int, matrixParams: seq<Param>, vectorParams: seq<Param>)

  /** The common parameters of a program. */
  datatype Parameters = Parameters(
    textureParams: seq<Param>,
    constantBuffers: seq<ConstantBuffer>,
    constantBufferBindings: seq<Param>)

  // ----- texture registers -----

  /** The key a texture binding adds to the pass's note table. */
  function TextureNote(index: int): string
  {
    "t" + IntToString(index) + ".Sample"
  }

  /** Two texture bindings clash in the note table exactly when they share a register. */
  lemma TextureNoteInjective(a: int, b: int)
    requires TextureNote(a) == TextureNote(b)
    ensures a == b
  {
    var sa, sb := IntToString(a), IntToString(b);
    assert TextureNote(a)[1..|TextureNote(a)| - 7] == sa;
    assert TextureNote(b)[1..|TextureNote(b)| - 7] == sb;
    IntToStringInjective(a, b);
  }

  /** One texture binding: a "Textures:" header (repeated for every binding)
      and the register `tN` with the texture's name. */
  function TextureBlock(name: string, index: int, level: nat): string
  {
    Line(level, "Textures:\n") + Line(level + 1, "t") + IntToString(index) + "\t: " + name + "\n"
  }

  /** ConvertTextureBindings: every binding in order; a name index missing from
      the name table throws KeyNotFound, a register listed twice makes the note
      table's Add throw. */
  function TextureBindings(names: map<int, string>, items: seq<Param>, level: nat, notes: set<string>)
    : (r: Result<(string, set<string>)>)
    decreases |items|
  {
    if items == [] then Ok(("", notes))
    else
      :- Need(items[0].nameIndex in names, KeyNotFound);
      var key := TextureNote(items[0].index);
      :- Need(key !in notes, DuplicateKey);
      var rest :- TextureBindings(names, items[1..], level, notes + {key});
      Ok((TextureBlock(names[items[0].nameIndex], items[0].index, level) + rest.0, rest.1))
  }

  /** The bindings a pass can list: every name resolves, no register appears
      twice, and none is already in the note table. */
  predicate TexturesResolvable(names: map<int, string>, items: seq<Param>, notes: set<string>)
  {
    && (forall k :: 0 <= k < |items| ==> items[k].nameIndex in names)
    && (forall j, k :: 0 <= j < k < |items| ==> items[j].index != items[k].index)
    && (forall k :: 0 <= k < |items| ==> TextureNote(items[k].index) !in notes)
  }

  /** ConvertTextureBindings completes exactly on resolvable bindings. */
  lemma {:induction false} TextureBindingsOk(names: map<int, string>, items: seq<Param>, level: nat, notes: set<string>)
    ensures TextureBindings(names, items, level, notes).Ok? <==> TexturesResolvable(names, items, notes)
    decreases |items|
  {
    if items != [] {
      var key := TextureNote(items[0].index);
      TextureBindingsOk(names, items[1..], level, notes + {key});
      if TexturesResolvable(names, items, notes) {
        ResolvableTail(names, items, notes);
      }
      if TextureBindings(names, items, level, notes).Ok? {
        ResolvableCons(names, items, notes);
      }
    }
  }

  /** The bindings after a resolvable first one stay resolvable once its register is noted. */
  lemma ResolvableTail(names: map<int, string>, items: seq<Param>, notes: set<string>)
    requires items != [] && TexturesResolvable(names, items, notes)
    ensures TexturesResolvable(names, items[1..], notes + {TextureNote(items[0].index)})
  {
    var key := TextureNote(items[0].index);
    var rest := items[1..];
    forall k | 0 <= k < |rest|
      ensures TextureNote(rest[k].index) !in notes + {key}
    {
      assert rest[k] == items[k + 1];
      if TextureNote(rest[k].index) == key {
        TextureNoteInjective(rest[k].index, items[0].index);
      }
    }
    forall j, k | 0 <= j < k < |rest| ensures rest[j].index != rest[k].index {
      assert rest[j] == items[j + 1] && rest[k] == items[k + 1];
    }
  }

  /** A resolvable first binding followed by resolvable ones is resolvable. */
  lemma ResolvableCons(names: map<int, string>, items: seq<Param>, notes: set<string>)
    requires items != [] && items[0].nameIndex in names && TextureNote(items[0].index) !in notes
    requires TexturesResolvable(names, items[1..], notes + {TextureNote(items[0].index)})
    ensures TexturesResolvable(names, items, notes)
  {
    var key := TextureNote(items[0].index);
    var rest := items[1..];
    forall k | 0 <= k < |items| ensures TextureNote(items[k].index) !in notes && items[k].nameIndex in names {
      if k > 0 {
        assert rest[k - 1] == items[k];
      }
    }
    forall j, k | 0 <= j < k < |items| ensures items[j].index != items[k].index {
      assert rest[k - 1] == items[k];
      if j == 0 {
        assert TextureNote(rest[k - 1].index) != key;
      } else {
        assert rest[j - 1] == items[j];
      }
    }
  }

  /** Once complete, ConvertTextureBindings has noted the register of every binding. */
  lemma {:induction false} TextureBindingsNotes(names: map<int, string>, items: seq<Param>, level: nat, notes: set<string>)
    requires TextureBindings(names, items, level, notes).Ok?
    ensures TextureBindings(names, items, level, notes).value.1 == notes + set k | 0 <= k < |items| :: TextureNote(items[k].index)
    decreases |items|
  {
    if items != [] {
      var key := TextureNote(items[0].index);
      var rest := items[1..];
      TextureBindingsNotes(names, rest, level, notes + {key});
      var all := set k | 0 <= k < |items| :: TextureNote(items[k].index);
      var later := set k | 0 <= k < |rest| :: TextureNote(rest[k].index);
      assert all == {key} + later by {
        forall x | x in all ensures x in {key} + later {
          var k :| 0 <= k < |items| && x == TextureNote(items[k].index);
          if k > 0 {
            assert rest[k - 1] == items[k];
          }
        }
        forall x | x in later ensures x in all {
          var k :| 0 <= k < |rest| && x == TextureNote(rest[k].index);
          assert rest[k] == items[k + 1];
        }
      }
    }
  }

  // ----- constant-buffer registers -----

  /** `cb[n]`: register `n` of the buffer bound as `cb`. */
  function Register(cb: string, n: int): string
  {
    cb + "[" + IntToString(n) + "]"
  }

  const Swizzle: string := "xyzw"

  /** The expression for a vector parameter at byte offset `index` of buffer
      `cb`: the register, then the component when the offset is the start of
      component y, z or w, or else the byte offset inside the register. The
      component is looked up by its number, so component y is ".y", and an
      offset inside component x names the bare register. */
  function VectorName(cb: string, index: int): (r: string)
    ensures index >= 0 && (index % 16) / 4 == 0 ==> r == Register(cb, index / 16)
    ensures index >= 0 && (index % 16) / 4 != 0 && index % 4 == 0 ==>
              r == Register(cb, index / 16) + "." + [Swizzle[(index % 16) / 4]]
    ensures index >= 0 && (index % 16) / 4 != 0 && index % 4 != 0 ==>
              r == Register(cb, index / 16) + "+" + IntToString(index % 16)
  {
    var baseOffset := CsDiv(index, 16);
    var swizz := CsDiv(CsRem(index, 16), 4);
    var remains := CsRem(CsRem(index, 16), 4);
    if swizz == 0 then Register(cb, baseOffset)
    else if 0 < swizz < 4 && remains == 0 then Register(cb, baseOffset) + "." + [Swizzle[swizz]]
    else Register(cb, baseOffset) + "+" + IntToString(CsRem(index, 16))
  }

  /** Offset 20 is component y of register 1. */
  lemma VectorNameAt20()
    ensures VectorName("cb0", 20) == "cb0[1].y"
  {
    assert IntToString(1) == "1";
  }

  /** The three bytes after the start of a register share its name. */
  lemma VectorNameInsideFirstComponent(cb: string, n: nat, b: nat)
    requires b < 4
    ensures VectorName(cb, 16 * n + b) == VectorName(cb, 16 * n)
  {
    RegisterOffset(n, b);
    RegisterOffset(n, 0);
  }

  /** Byte `b` of register `n` lies at offset 16 * n + b. */
  lemma RegisterOffset(n: nat, b: nat)
    requires b < 16
    ensures (16 * n + b) / 16 == n && (16 * n + b) % 16 == b
  {
  }

  /** Digits followed by a closing bracket: the bracket tells where the digits end. */
  lemma DigitsBeforeBracket(d1: string, s1: string, d2: string, s2: string)
    requires AllDigits(d1) && AllDigits(d2) && d1 + "]" + s1 == d2 + "]" + s2
    ensures d1 == d2 && s1 == s2
  {
    var t := d1 + "]" + s1;
    assert forall i :: 0 <= i < |d1| ==> IsDigit(t[i]);
    assert forall i :: 0 <= i < |d2| ==> IsDigit(t[i]);
    assert !IsDigit(t[|d1|]) && !IsDigit(t[|d2|]);
    assert |d1| == |d2|;
    assert d1 == t[..|d1|] && d2 == (d2 + "]" + s2)[..|d2|];
    assert s1 == t[|d1| + 1..] && s2 == (d2 + "]" + s2)[|d2| + 1..];
  }

  /** A register expression followed by a suffix determines register and suffix. */
  lemma RegisterSplit(cb: string, m: nat, s1: string, n: nat, s2: string)
    requires Register(cb, m) + s1 == Register(cb, n) + s2
    ensures m == n && s1 == s2
  {
    var open := cb + "[";
    var r1 := NatToString(m) + "]" + s1;
    var r2 := NatToString(n) + "]" + s2;
    assert Register(cb, m) + s1 == open + r1;
    assert Register(cb, n) + s2 == open + r2;
    AfterPrefix(open, r1);
    AfterPrefix(open, r2);
    DigitsBeforeBracket(NatToString(m), s1, NatToString(n), s2);
    NatToStringInjective(m, n);
  }

  lemma AfterPrefix(pre: string, rest: string)
    ensures (pre + rest)[|pre|..] == rest
  {
  }

  /** Vectors starting on component boundaries never share a name. */
  lemma VectorNameInjective(cb: string, a: nat, b: nat)
    requires a % 4 == 0 && b % 4 == 0 && VectorName(cb, a) == VectorName(cb, b)
    ensures a == b
  {
    Components(a);
    Components(b);
    var ca, cb' := (a % 16) / 4, (b % 16) / 4;
    assert VectorName(cb, a) == Register(cb, a / 16) + ComponentSuffix(ca);
    assert VectorName(cb, b) == Register(cb, b / 16) + ComponentSuffix(cb');
    RegisterSplit(cb, a / 16, ComponentSuffix(ca), b / 16, ComponentSuffix(cb'));
    ComponentSuffixInjective(ca, cb');
  }

  /** The suffix naming component `c` of a register: none for x. */
  function ComponentSuffix(c: nat): string
    requires c < 4
  {
    if c == 0 then "" else "." + [Swizzle[c]]
  }

  lemma ComponentSuffixInjective(c: nat, d: nat)
    requires c < 4 && d < 4 && ComponentSuffix(c) == ComponentSuffix(d)
    ensures c == d
  {
    if c != 0 && d != 0 {
      assert ComponentSuffix(c)[1] == Swizzle[c];
      assert ComponentSuffix(d)[1] == Swizzle[d];
    }
  }

  /** A multiple of four is its register times sixteen plus its component times four. */
  lemma Components(a: nat)
    requires a % 4 == 0
    ensures a == 16 * (a / 16) + 4 * ((a % 16) / 4) && (a % 16) / 4 < 4
  {
    var q, r := a / 16, a % 16;
    var c, m := r / 4, r % 4;
    assert r == 4 * c + m;
    assert a == 4 * (4 * q + c) + m;
    RemainderByFour(a, 4 * q + c, m);
  }

  lemma RemainderByFour(x: int, k: int, m: int)
    requires x == 4 * k + m && 0 <= m < 4
    ensures x % 4 == m
  {
  }

  /** The expression for a matrix parameter at byte offset `index`: the four
      consecutive registers from index / 16 on. */
  function MatrixName(cb: string, index: int): (r: string)
    ensures index >= 0 ==>
              r == Register(cb, index / 16) + Register("", index / 16 + 1)
                   + Register("", index / 16 + 2) + Register("", index / 16 + 3)
  {
    var b := CsDiv(index, 16);
    Register(cb, b) + Register("", b + 1) + Register("", b + 2) + Register("", b + 3)
  }

  /** Two matrices of one buffer get the same expression exactly when they
      start in the same register. */
  lemma MatrixNameRegister(cb: string, a: nat, b: nat)
    ensures MatrixName(cb, a) == MatrixName(cb, b) <==> a / 16 == b / 16
  {
    if MatrixName(cb, a) == MatrixName(cb, b) {
      var ta := Register("", a / 16 + 1) + Register("", a / 16 + 2) + Register("", a / 16 + 3);
      var tb := Register("", b / 16 + 1) + Register("", b / 16 + 2) + Register("", b / 16 + 3);
      Regroup(Register(cb, a / 16), Register("", a / 16 + 1), Register("", a / 16 + 2), Register("", a / 16 + 3));
      Regroup(Register(cb, b / 16), Register("", b / 16 + 1), Register("", b / 16 + 2), Register("", b / 16 + 3));
      RegisterSplit(cb, a / 16, ta, b / 16, tb);
    }
  }

  lemma Regroup(p: string, q: string, r: string, s: string)
    ensures p + q + r + s == p + (q + r + s)
  {
  }

  /** `cb_bind`: each binding names its buffer "cbN"; a later binding of the
      same name index replaces an earlier one. */
  function CbBindings(bindings: seq<Param>): map<int, string>
  {
    if bindings == [] then map[]
    else
      var last := bindings[|bindings| - 1];
      CbBindings(bindings[..|bindings| - 1])[last.nameIndex := "cb" + IntToString(last.index)]
  }

  /** A buffer is bound exactly when some binding names it, and then to the
      register of the last such binding. */
  lemma {:induction false} CbBindingsLookup(bindings: seq<Param>, k: nat)
    requires k < |bindings| && forall j :: k < j < |bindings| ==> bindings[j].nameIndex != bindings[k].nameIndex
    ensures bindings[k].nameIndex in CbBindings(bindings)
    ensures CbBindings(bindings)[bindings[k].nameIndex] == "cb" + IntToString(bindings[k].index)
    decreases |bindings|
  {
    if k < |bindings| - 1 {
      var front := bindings[..|bindings| - 1];
      assert front[k] == bindings[k];
      CbBindingsLookup(front, k);
    }
  }

  lemma {:induction false} CbBindingsDomain(bindings: seq<Param>, i: int)
    ensures i in CbBindings(bindings) <==> exists k :: 0 <= k < |bindings| && bindings[k].nameIndex == i
    decreases |bindings|
  {
    if bindings != [] {
      var front := bindings[..|bindings| - 1];
      CbBindingsDomain(front, i);
      if i in CbBindings(front) {
        var k :| 0 <= k < |front| && front[k].nameIndex == i;
        assert bindings[k].nameIndex == i;
      }
      if exists k :: 0 <= k < |bindings| && bindings[k].nameIndex == i {
        var k :| 0 <= k < |bindings| && bindings[k].nameIndex == i;
        if k < |front| {
          assert front[k].nameIndex == i;
        }
      }
    }
  }

  /** The matrix lines of one buffer; each matrix expression is added to the
      note table, so two matrices in one register make Add throw. */
  function MatrixLines(names: map<int, string>, cb: string, ms: seq<Param>, level: nat, notes: set<string>)
    : (r: Result<(string, set<string>)>)
    ensures r.Ok? ==> r.value.1 == notes + set k | 0 <= k < |ms| :: MatrixName(cb, ms[k].index)
    decreases |ms|
  {
    if ms == [] then Ok(("", notes))
    else
      var name := MatrixName(cb, ms[0].index);
      :- Need(ms[0].nameIndex in names, KeyNotFound);
      :- Need(name !in notes, DuplicateKey);
      var rest :- MatrixLines(names, cb, ms[1..], level, notes + {name});
      assert rest.1 == notes + set k | 0 <= k < |ms| :: MatrixName(cb, ms[k].index) by {
        SetOfTail(cb, ms);
      }
      Ok((Line(level, name + " : " + names[ms[0].nameIndex] + "\n") + rest.0, rest.1))
  }

  lemma SetOfTail(cb: string, ms: seq<Param>)
    requires ms != []
    ensures (set k | 0 <= k < |ms| :: MatrixName(cb, ms[k].index))
            == {MatrixName(cb, ms[0].index)} + set k | 0 <= k < |ms[1..]| :: MatrixName(cb, ms[1..][k].index)
  {
    var all := set k | 0 <= k < |ms| :: MatrixName(cb, ms[k].index);
    var later := set k | 0 <= k < |ms[1..]| :: MatrixName(cb, ms[1..][k].index);
    forall x | x in all ensures x in {MatrixName(cb, ms[0].index)} + later {
      var k :| 0 <= k < |ms| && x == MatrixName(cb, ms[k].index);
      if k > 0 {
        assert ms[1..][k - 1] == ms[k];
      }
    }
    forall x | x in later ensures x in all {
      var k :| 0 <= k < |ms[1..]| && x == MatrixName(cb, ms[1..][k].index);
      assert ms[1..][k] == ms[k + 1];
    }
  }

  /** The vector lines of one buffer. */
  function VectorLines(names: map<int, string>, cb: string, vs: seq<Param>, level: nat): (r: Result<string>)
    ensures r.Ok? <==> forall k :: 0 <= k < |vs| ==> vs[k].nameIndex in names
    decreases |vs|
  {
    if vs == [] then Ok("")
    else
      :- Need(vs[0].nameIndex in names, KeyNotFound);
      var rest :- VectorLines(names, cb, vs[1..], level);
      Ok(Line(level, VectorName(cb, vs[0].index) + " : " + names[vs[0].nameIndex] + "\n") + rest)
  }

  /** One constant buffer: its binding line, its matrices, its vectors. */
  function BufferBlock(names: map<int, string>, bound: map<int, string>, buffer: ConstantBuffer, level: nat, notes: set<string>)
    : (r: Result<(string, set<string>)>)
    ensures r.Ok? ==> buffer.nameIndex in names && buffer.nameIndex in bound
    ensures r.Ok? ==> forall k :: 0 <= k < |buffer.vectorParams| ==> buffer.vectorParams[k].nameIndex in names
    ensures r.Ok? ==> notes <= r.value.1
  {
    var name :- if buffer.nameIndex in names then Ok(names[buffer.nameIndex]) else Err(KeyNotFound);
    :- Need(buffer.nameIndex in bound, KeyNotFound);
    var cb := bound[buffer.nameIndex];
    var matrices :- MatrixLines(names, cb, buffer.matrixParams, level + 1, notes);
    var vectors :- VectorLines(names, cb, buffer.vectorParams, level + 1);
    Ok((Line(level, cb + " : " + name + "\n") + matrices.0 + vectors, matrices.1))
  }

  function BufferBlocks(names: map<int, string>, bound: map<int, string>, buffers: seq<ConstantBuffer>, level: nat, notes: set<string>)
    : (r: Result<(string, set<string>)>)
    ensures r.Ok? ==> forall k :: 0 <= k < |buffers| ==> buffers[k].nameIndex in names && buffers[k].nameIndex in bound
    ensures r.Ok? ==> notes <= r.value.1
    decreases |buffers|
  {
    if buffers == [] then Ok(("", notes))
    else
      var first :- BufferBlock(names, bound, buffers[0], level, notes);
      var rest :- BufferBlocks(names, bound, buffers[1..], level, first.1);
      assert forall k :: 1 <= k < |buffers| ==> buffers[k] == buffers[1..][k - 1];
      Ok((first.0 + rest.0, rest.1))
  }

  /** ConvertConstantBuffer: the `Parameters` block of a program. It opens and
      closes even when the program has no constant buffer, and fails when a
      buffer has no name or no binding. */
  function ConvertConstantBuffer(names: map<int, string>, params: Parameters, programType: string, level: nat, notes: set<string>)
    : (r: Result<(string, set<string>)>)
    ensures r.Ok? ==> forall k :: 0 <= k < |params.constantBuffers| ==>
                        && params.constantBuffers[k].nameIndex in names
                        && exists j :: 0 <= j < |params.constantBufferBindings|
                                       && params.constantBufferBindings[j].nameIndex == params.constantBuffers[k].nameIndex
  {
    var bound := CbBindings(params.constantBufferBindings);
    var blocks :- BufferBlocks(names, bound, params.constantBuffers, level + 1, notes);
    assert forall k :: 0 <= k < |params.constantBuffers| ==>
             exists j :: 0 <= j < |params.constantBufferBindings|
                         && params.constantBufferBindings[j].nameIndex == params.constantBuffers[k].nameIndex
    by {
      forall k | 0 <= k < |params.constantBuffers|
        ensures exists j :: 0 <= j < |params.constantBufferBindings|
                            && params.constantBufferBindings[j].nameIndex == params.constantBuffers[k].nameIndex
      {
        CbBindingsDomain(params.constantBufferBindings, params.constantBuffers[k].nameIndex);
      }
    }
    Ok((Line(level, "Parameters \"" + programType + "\" {\n") + blocks.0 + Line(level, "}\n"), blocks.1))
  }

  /** A program without constant buffers still gets an empty `Parameters` block. */
  lemma ConstantBufferEmpty(names: map<int, string>, params: Parameters, programType: string, level: nat, notes: set<string>)
    requires params.constantBuffers == []
    ensures ConvertConstantBuffer(names, params, programType, level, notes)
            == Ok((Line(level, "Parameters \"" + programType + "\" {\n") + Line(level, "}\n"), notes))
  {
    var head := Line(level, "Parameters \"" + programType + "\" {\n");
    assert head + "" == head;
  }
}
