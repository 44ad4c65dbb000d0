/** Which sub-programs are printed, for which platform, and in what order:
    the grouping of ConvertSubPrograms, the first-compatible-platform rule,
    FlattenPlayerSubPrograms and the SubProgram block of AppendSubProgram. */
module ProgramSelection {
  import opened Base
  import opened Text
  import opened ShaderEnums
  import opened ShaderProgramFormat
  import opened SubProgramExport
  import opened NameResolver

  /** A SerializedSubProgram: its blob index, its program type, the hardware
      tier and the JSON text of its parameters (the serializer is not modelled). */
  datatype SerializedSubProgram = SerializedSubProgram(
    blobIndex: nat, programType: GpuProgramType, hardwareTier: int, parametersJson: string)

  datatype PlayerSubProgram = PlayerSubProgram(blobIndex: nat, programType: GpuProgramType)

  /** A SerializedProgram: its sub-programs, the nested player sub-program
      lists (each of which may be null) and the common parameters. */
  datatype SerializedProgram = SerializedProgram(
    subPrograms: seq<SerializedSubProgram>,
    playerSubPrograms: Option<seq<Option<seq<PlayerSubProgram>>>>,
    commonParameters: Option<Parameters>)

  /** What ConvertSubPrograms sees of either kind of sub-program: the blob
      index, the program type and the additional info, if any. */
  datatype SubProgramRef = SubProgramRef(blobIndex: nat, programType: GpuProgramType, info: Option<string>)

  /** The additional info of a serialized sub-program: `hw_tier` and the tier
      in format "00", a line break, then the parameters as JSON. */
  function SerializedInfo(tier: int, json: string): string
  {
    "hw_tier" + Pad2(tier) + "\n" + json
  }

  function SerializedRef(s: SerializedSubProgram): SubProgramRef
  {
    SubProgramRef(s.blobIndex, s.programType, Some(SerializedInfo(s.hardwareTier, s.parametersJson)))
  }

  function PlayerRef(p: PlayerSubProgram): SubProgramRef
  {
    SubProgramRef(p.blobIndex, p.programType, None)
  }

  function SerializedRefs(ss: seq<SerializedSubProgram>): (r: seq<SubProgramRef>)
    ensures |r| == |ss| && forall i :: 0 <= i < |ss| ==> r[i] == SerializedRef(ss[i])
  {
    seq(|ss|, i requires 0 <= i < |ss| => SerializedRef(ss[i]))
  }

  function PlayerRefs(ps: seq<PlayerSubProgram>): (r: seq<SubProgramRef>)
    ensures |r| == |ps| && forall i :: 0 <= i < |ps| ==> r[i] == PlayerRef(ps[i])
  {
    seq(|ps|, i requires 0 <= i < |ps| => PlayerRef(ps[i]))
  }

  // ---------------------------------------------------------------------
  // FlattenPlayerSubPrograms

  function Present(l: Option<seq<PlayerSubProgram>>): seq<PlayerSubProgram>
  {
    if l.Some? then l.value else []
  }

  /** The non-null lists one after the other. */
  function ConcatLists(ls: seq<Option<seq<PlayerSubProgram>>>): seq<PlayerSubProgram>
    decreases |ls|
  {
    if |ls| == 0 then [] else ConcatLists(ls[..|ls| - 1]) + Present(ls[|ls| - 1])
  }

  /** The flattened player sub-programs; none when the program or its list of
      lists is null. */
  function Flatten(program: Option<SerializedProgram>): seq<PlayerSubProgram>
  {
    if program.None? || program.value.playerSubPrograms.None? then []
    else ConcatLists(program.value.playerSubPrograms.value)
  }

  lemma {:induction false} ConcatListsAppend(a: seq<Option<seq<PlayerSubProgram>>>, b: seq<Option<seq<PlayerSubProgram>>>)
    ensures ConcatLists(a + b) == ConcatLists(a) + ConcatLists(b)
    decreases |b|
  {
    if |b| == 0 {
      assert a + b == a;
    } else {
      var b' := b[..|b| - 1];
      assert (a + b)[..|a + b| - 1] == a + b';
      assert (a + b)[|a + b| - 1] == b[|b| - 1];
      ConcatListsAppend(a, b');
    }
  }

  /** A player sub-program is in the flattened list exactly when it is in one
      of the non-null inner lists. */
  lemma {:induction false} ConcatListsMembers(ls: seq<Option<seq<PlayerSubProgram>>>, x: PlayerSubProgram)
    ensures x in ConcatLists(ls) <==> exists j :: 0 <= j < |ls| && x in Present(ls[j])
    decreases |ls|
  {
    if |ls| > 0 {
      var init := ls[..|ls| - 1];
      ConcatListsMembers(init, x);
      if x in ConcatLists(init) {
        var j :| 0 <= j < |init| && x in Present(init[j]);
        assert ls[j] == init[j];
      }
      if exists j :: 0 <= j < |ls| && x in Present(ls[j]) {
        var j :| 0 <= j < |ls| && x in Present(ls[j]);
        if j < |init| {
          assert init[j] == ls[j];
        }
      }
    }
  }

  /** The length of the flattened list is the sum of the inner lengths. */
  function TotalLength(ls: seq<Option<seq<PlayerSubProgram>>>): nat
    decreases |ls|
  {
    if |ls| == 0 then 0 else TotalLength(ls[..|ls| - 1]) + |Present(ls[|ls| - 1])|
  }

  lemma {:induction false} ConcatListsLength(ls: seq<Option<seq<PlayerSubProgram>>>)
    ensures |ConcatLists(ls)| == TotalLength(ls)
    decreases |ls|
  {
    if |ls| > 0 {
      ConcatListsLength(ls[..|ls| - 1]);
    }
  }

  lemma FlattenExample(a: PlayerSubProgram, b: PlayerSubProgram, c: PlayerSubProgram, common: Option<Parameters>)
    ensures Flatten(Some(SerializedProgram([], Some([Some([a, b]), None, Some([c])]), common))) == [a, b, c]
  {
    var ls: seq<Option<seq<PlayerSubProgram>>> := [Some([a, b]), None, Some([c])];
    assert ls[..2][..1][..0] == [];
    assert ConcatLists(ls[..2][..1]) == [a, b];
    assert ConcatLists(ls[..2]) == [a, b];
    assert ConcatLists(ls) == [a, b, c];
  }

  /** FlattenPlayerSubPrograms: a list grown by AddRange over the non-null
      inner arrays. */
  method FlattenPlayerSubPrograms(program: Option<SerializedProgram>) returns (flat: seq<PlayerSubProgram>)
    ensures flat == Flatten(program)
  {
    flat := [];
    if program.None? || program.value.playerSubPrograms.None? {
      return;
    }
    var lists := program.value.playerSubPrograms.value;
    var i := 0;
    while i < |lists|
      invariant 0 <= i <= |lists|
      invariant flat == ConcatLists(lists[..i])
    {
      assert lists[..i + 1][..i] == lists[..i];
      if lists[i].Some? {
        flat := flat + lists[i].value;
      }
      i := i + 1;
    }
    assert lists[..|lists|] == lists;
  }

  // ---------------------------------------------------------------------
  // GroupBy in first-appearance order

  predicate NoDuplicates<K(==)>(s: seq<K>)
  {
    forall i, j :: 0 <= i < j < |s| ==> s[i] != s[j]
  }

  /** The distinct keys in order of first appearance. */
  function Distinct<K(==,!new)>(ks: seq<K>): (r: seq<K>)
    ensures forall k :: k in r <==> k in ks
    ensures NoDuplicates(r)
    decreases |ks|
  {
    if |ks| == 0 then []
    else
      var d := Distinct(ks[..|ks| - 1]);
      assert ks == ks[..|ks| - 1] + [ks[|ks| - 1]];
      if ks[|ks| - 1] in d then d else d + [ks[|ks| - 1]]
  }

  /** The position of the first occurrence of `k`. */
  function FirstIndex<K(==)>(ks: seq<K>, k: K): (r: nat)
    requires k in ks
    ensures r < |ks| && ks[r] == k && forall m :: 0 <= m < r ==> ks[m] != k
  {
    if ks[0] == k then 0 else 1 + FirstIndex(ks[1..], k)
  }

  lemma FirstIndexPrefix<K>(ks: seq<K>, n: nat, k: K)
    requires n <= |ks| && k in ks[..n]
    ensures FirstIndex(ks, k) == FirstIndex(ks[..n], k)
  {
    var a := FirstIndex(ks, k);
    var b := FirstIndex(ks[..n], k);
    assert ks[b] == k;
    assert a <= b;
    assert ks[..n][a] == ks[a];
  }

  /** Distinct keeps the order of first appearance. */
  lemma {:induction false} DistinctInOrder<K(!new)>(ks: seq<K>, i: nat, j: nat)
    requires i < j < |Distinct(ks)|
    ensures FirstIndex(ks, Distinct(ks)[i]) < FirstIndex(ks, Distinct(ks)[j])
    decreases |ks|
  {
    var n := |ks| - 1;
    var init := ks[..n];
    var d := Distinct(init);
    var r := Distinct(ks);
    assert ks == init + [ks[n]];
    if j < |d| {
      assert r[i] == d[i] && r[j] == d[j];
      DistinctInOrder(init, i, j);
      FirstIndexPrefix(ks, n, d[i]);
      FirstIndexPrefix(ks, n, d[j]);
    } else {
      assert r == d + [ks[n]] && r[j] == ks[n] && r[i] == d[i];
      assert ks[n] !in init;
      FirstIndexPrefix(ks, n, d[i]);
    }
  }

  function BlobOf(x: SubProgramRef): nat { x.blobIndex }
  function TypeOf(x: SubProgramRef): GpuProgramType { x.programType }

  function Keys<K>(xs: seq<SubProgramRef>, key: SubProgramRef -> K): (r: seq<K>)
    ensures |r| == |xs| && forall i :: 0 <= i < |xs| ==> r[i] == key(xs[i])
  {
    seq(|xs|, i requires 0 <= i < |xs| => key(xs[i]))
  }

  /** The elements with key `k`, in their original order. */
  function Filter<K(==)>(xs: seq<SubProgramRef>, key: SubProgramRef -> K, k: K): seq<SubProgramRef>
    decreases |xs|
  {
    if |xs| == 0 then []
    else Filter(xs[..|xs| - 1], key, k) + (if key(xs[|xs| - 1]) == k then [xs[|xs| - 1]] else [])
  }

  lemma FilterSnoc<K>(xs: seq<SubProgramRef>, x: SubProgramRef, key: SubProgramRef -> K, k: K)
    ensures Filter(xs + [x], key, k) == Filter(xs, key, k) + (if key(x) == k then [x] else [])
  {
    var ys := xs + [x];
    assert ys[..|ys| - 1] == xs && ys[|ys| - 1] == x;
  }

  /** A group holds exactly the elements with its key. */
  lemma {:induction false} FilterMembers<K>(xs: seq<SubProgramRef>, key: SubProgramRef -> K, k: K, y: SubProgramRef)
    ensures y in Filter(xs, key, k) <==> y in xs && key(y) == k
    decreases |xs|
  {
    if |xs| > 0 {
      var init := xs[..|xs| - 1];
      assert xs == init + [xs[|xs| - 1]];
      FilterMembers(init, key, k, y);
    }
  }

  /** One group per key of `ds`, in the order of `ds`. */
  function GroupsOver<K(==)>(xs: seq<SubProgramRef>, key: SubProgramRef -> K, ds: seq<K>): (r: seq<seq<SubProgramRef>>)
    ensures |r| == |ds|
    decreases |ds|
  {
    if |ds| == 0 then [] else [Filter(xs, key, ds[0])] + GroupsOver(xs, key, ds[1..])
  }

  /** LINQ GroupBy: the groups of equal keys, in order of first appearance. */
  function GroupBy<K(==,!new)>(xs: seq<SubProgramRef>, key: SubProgramRef -> K): seq<seq<SubProgramRef>>
  {
    GroupsOver(xs, key, Distinct(Keys(xs, key)))
  }

  /** The i-th group is the i-th distinct key's elements. */
  lemma {:induction false} GroupsOverAt<K>(xs: seq<SubProgramRef>, key: SubProgramRef -> K, ds: seq<K>, i: nat)
    requires i < |ds|
    ensures GroupsOver(xs, key, ds)[i] == Filter(xs, key, ds[i])
    decreases i
  {
    if i > 0 {
      GroupsOverAt(xs, key, ds[1..], i - 1);
    }
  }

  /** Every group of GroupBy is non-empty and all its members share the group's key. */
  lemma GroupByGroups<K(!new)>(xs: seq<SubProgramRef>, key: SubProgramRef -> K, i: nat, y: SubProgramRef)
    requires i < |GroupBy(xs, key)|
    ensures |GroupBy(xs, key)[i]| > 0
    ensures y in GroupBy(xs, key)[i] ==> key(y) == Distinct(Keys(xs, key))[i]
  {
    var ds := Distinct(Keys(xs, key));
    var k := ds[i];
    GroupsOverAt(xs, key, ds, i);
    assert k in Keys(xs, key);
    var j :| 0 <= j < |xs| && Keys(xs, key)[j] == k;
    FilterMembers(xs, key, k, xs[j]);
    FilterMembers(xs, key, k, y);
  }

  function Join(gs: seq<seq<SubProgramRef>>): seq<SubProgramRef>
    decreases |gs|
  {
    if |gs| == 0 then [] else gs[0] + Join(gs[1..])
  }

  lemma {:induction false} JoinAppend(a: seq<seq<SubProgramRef>>, b: seq<seq<SubProgramRef>>)
    ensures Join(a + b) == Join(a) + Join(b)
    decreases |a|
  {
    if |a| == 0 {
      assert a + b == b;
    } else {
      assert (a + b)[0] == a[0] && (a + b)[1..] == a[1..] + b;
      JoinAppend(a[1..], b);
    }
  }

  lemma NoDuplicatesTail<K>(ds: seq<K>)
    requires |ds| > 0 && NoDuplicates(ds)
    ensures NoDuplicates(ds[1..]) && ds[0] !in ds[1..]
  {
    forall i, j | 0 <= i < j < |ds[1..]| ensures ds[1..][i] != ds[1..][j] {
      assert ds[1..][i] == ds[i + 1] && ds[1..][j] == ds[j + 1];
    }
    forall m | 0 <= m < |ds[1..]| ensures ds[1..][m] != ds[0] {
      assert ds[1..][m] == ds[m + 1];
    }
  }

  function Single(x: SubProgramRef, present: bool): multiset<SubProgramRef>
  {
    if present then multiset{x} else multiset{}
  }

  /** Adding one element to the input adds it to exactly one group, when its
      key is among the (distinct) group keys. */
  lemma {:induction false} GroupsOverSnoc<K>(xs: seq<SubProgramRef>, x: SubProgramRef, key: SubProgramRef -> K, ds: seq<K>)
    requires NoDuplicates(ds)
    ensures multiset(Join(GroupsOver(xs + [x], key, ds)))
         == multiset(Join(GroupsOver(xs, key, ds))) + Single(x, key(x) in ds)
    decreases |ds|
  {
    if |ds| > 0 {
      var k := ds[0];
      var tail := ds[1..];
      NoDuplicatesTail(ds);
      GroupsOverSnoc(xs, x, key, tail);
      FilterSnoc(xs, x, key, k);
      assert key(x) in ds <==> key(x) == k || key(x) in tail by {
        assert ds == [k] + tail;
      }
      assert GroupsOver(xs + [x], key, ds) == [Filter(xs + [x], key, k)] + GroupsOver(xs + [x], key, tail);
      assert GroupsOver(xs, key, ds) == [Filter(xs, key, k)] + GroupsOver(xs, key, tail);
      JoinCons(Filter(xs + [x], key, k), GroupsOver(xs + [x], key, tail));
      JoinCons(Filter(xs, key, k), GroupsOver(xs, key, tail));
      SingleSplit(x, key(x) in ds, key(x) == k, key(x) in tail);
      MultisetStep(Filter(xs, key, k), Filter(xs + [x], key, k),
                   Join(GroupsOver(xs, key, tail)), Join(GroupsOver(xs + [x], key, tail)),
                   Single(x, key(x) == k), Single(x, key(x) in tail));
    }
  }

  lemma JoinCons(g: seq<SubProgramRef>, gs: seq<seq<SubProgramRef>>)
    ensures Join([g] + gs) == g + Join(gs)
  {
    assert ([g] + gs)[0] == g && ([g] + gs)[1..] == gs;
  }

  lemma SingleSplit(x: SubProgramRef, inAll: bool, isHead: bool, inTail: bool)
    requires inAll <==> isHead || inTail
    requires !(isHead && inTail)
    ensures Single(x, inAll) == Single(x, isHead) + Single(x, inTail)
  {
  }

  lemma MultisetStep(f0: seq<SubProgramRef>, f1: seq<SubProgramRef>, r0: seq<SubProgramRef>, r1: seq<SubProgramRef>,
                     a: multiset<SubProgramRef>, b: multiset<SubProgramRef>)
    requires multiset(f1) == multiset(f0) + a
    requires multiset(r1) == multiset(r0) + b
    ensures multiset(f1 + r1) == multiset(f0 + r0) + (a + b)
  {
  }

  lemma {:induction false} EmptyGroups<K>(xs: seq<SubProgramRef>, key: SubProgramRef -> K, ds: seq<K>)
    requires |xs| == 0
    ensures Join(GroupsOver(xs, key, ds)) == []
    decreases |ds|
  {
    if |ds| > 0 {
      EmptyGroups(xs, key, ds[1..]);
    }
  }

  /** With distinct keys covering every element, the groups hold each element
      exactly once. */
  lemma {:induction false} GroupsOverCover<K>(xs: seq<SubProgramRef>, key: SubProgramRef -> K, ds: seq<K>)
    requires NoDuplicates(ds)
    requires forall i :: 0 <= i < |xs| ==> key(xs[i]) in ds
    ensures multiset(Join(GroupsOver(xs, key, ds))) == multiset(xs)
    decreases |xs|
  {
    if |xs| == 0 {
      EmptyGroups(xs, key, ds);
    } else {
      var init := xs[..|xs| - 1];
      var x := xs[|xs| - 1];
      assert xs == init + [x];
      GroupsOverCover(init, key, ds);
      GroupsOverSnoc(init, x, key, ds);
    }
  }

  /** GroupBy is a partition: concatenating its groups gives a permutation of the input. */
  lemma GroupByPermutation<K(!new)>(xs: seq<SubProgramRef>, key: SubProgramRef -> K)
    ensures multiset(Join(GroupBy(xs, key))) == multiset(xs)
  {
    var ks := Keys(xs, key);
    forall i | 0 <= i < |xs| ensures key(xs[i]) in Distinct(ks) {
      assert ks[i] == key(xs[i]);
    }
    GroupsOverCover(xs, key, Distinct(ks));
  }

  /** Every group of a blob group, split again by program type. */
  function TypeGroups(bgs: seq<seq<SubProgramRef>>): seq<seq<SubProgramRef>>
    decreases |bgs|
  {
    if |bgs| == 0 then [] else GroupBy(bgs[0], TypeOf) + TypeGroups(bgs[1..])
  }

  /** The groups ConvertSubPrograms visits: by blob index, then by program
      type, each in order of first appearance. */
  function Groups(subs: seq<SubProgramRef>): seq<seq<SubProgramRef>>
  {
    TypeGroups(GroupBy(subs, BlobOf))
  }

  lemma {:induction false} TypeGroupsPermutation(bgs: seq<seq<SubProgramRef>>)
    ensures multiset(Join(TypeGroups(bgs))) == multiset(Join(bgs))
    decreases |bgs|
  {
    if |bgs| > 0 {
      TypeGroupsPermutation(bgs[1..]);
      JoinAppend(GroupBy(bgs[0], TypeOf), TypeGroups(bgs[1..]));
      GroupByPermutation(bgs[0], TypeOf);
    }
  }

  /** Every sub-program lands in exactly one (blob index, program type) group. */
  lemma GroupsPermutation(subs: seq<SubProgramRef>)
    ensures multiset(Join(Groups(subs))) == multiset(subs)
  {
    TypeGroupsPermutation(GroupBy(subs, BlobOf));
    GroupByPermutation(subs, BlobOf);
  }

  // ---------------------------------------------------------------------
  // Platform selection

  /** CheckGpuProgramUsable for each platform in turn. */
  function Answers(platforms: seq<Platform>, t: GpuProgramType): (a: seq<Result<bool>>)
    ensures |a| == |platforms|
    ensures forall j :: 0 <= j < |platforms| ==> a[j] == CheckGpuProgramUsable(platforms[j], t)
  {
    seq(|platforms|, j requires 0 <= j < |platforms| => CheckGpuProgramUsable(platforms[j], t))
  }

  /** The loop over platforms on the answers of the table: the first index
      from `from` on that says yes; a failing answer met first propagates. */
  function SelectFirst(answers: seq<Result<bool>>, from: nat): (r: Result<Option<nat>>)
    ensures r.Ok? && r.value.Some? ==>
      from <= r.value.value < |answers| && answers[r.value.value] == Ok(true)
      && forall j :: from <= j < r.value.value ==> answers[j] == Ok(false)
    ensures r == Ok(None) ==> forall j :: from <= j < |answers| ==> answers[j] == Ok(false)
    ensures r.Err? ==>
      exists i :: from <= i < |answers| && answers[i] == Err(r.error)
                  && forall j :: from <= j < i ==> answers[j] == Ok(false)
    decreases |answers| - from
  {
    if from >= |answers| then Ok(None)
    else
      var usable :- answers[from];
      if usable then Ok(Some(from)) else SelectFirst(answers, from + 1)
  }

  /** The platform whose program table a group of type `t` is printed with. */
  function SelectPlatform(platforms: seq<Platform>, t: GpuProgramType): Result<Option<nat>>
  {
    SelectFirst(Answers(platforms, t), 0)
  }

  /** The selection follows the table: the first compatible platform, none when
      no platform is compatible, NotSupportedException when an obsolete platform
      comes first. */
  lemma SelectPlatformFirstMatch(platforms: seq<Platform>, t: GpuProgramType)
    ensures var r := SelectPlatform(platforms, t);
      && (r.Ok? && r.value.Some? ==>
            r.value.value < |platforms| && CheckGpuProgramUsable(platforms[r.value.value], t) == Ok(true)
            && forall j :: 0 <= j < r.value.value ==> CheckGpuProgramUsable(platforms[j], t) == Ok(false))
      && (r == Ok(None) ==> forall j :: 0 <= j < |platforms| ==> CheckGpuProgramUsable(platforms[j], t) == Ok(false))
      && (r.Err? ==> r.error == NotSupported)
  {
    var a := Answers(platforms, t);
    var r := SelectFirst(a, 0);
    if r.Err? {
      var i :| 0 <= i < |a| && a[i] == Err(r.error);
      UsableFailsExactlyOnUnsupported(platforms[i], t);
    }
  }

  /** The selection only looks at the answers up to the first yes: cutting
      the list after it changes nothing. */
  lemma {:induction false} SelectFirstPrefix(answers: seq<Result<bool>>, from: nat, i: nat)
    requires SelectFirst(answers, from) == Ok(Some(i))
    ensures SelectFirst(answers[..i + 1], from) == Ok(Some(i))
    decreases |answers| - from
  {
    assert answers[..i + 1][from] == answers[from];
    if from < i {
      SelectFirstPrefix(answers, from + 1, i);
    }
  }

  lemma {:induction false} SelectFirstAllNo(answers: seq<Result<bool>>, from: nat)
    requires forall j :: from <= j < |answers| ==> answers[j] == Ok(false)
    ensures SelectFirst(answers, from) == Ok(None)
    decreases |answers| - from
  {
    if from < |answers| {
      SelectFirstAllNo(answers, from + 1);
    }
  }

  lemma {:induction false} SelectFirstFails(answers: seq<Result<bool>>, from: nat, i: nat)
    requires from <= i < |answers| && answers[i].Err?
    requires forall j :: from <= j < i ==> answers[j] == Ok(false)
    ensures SelectFirst(answers, from) == Err(answers[i].error)
    decreases i - from
  {
    if from < i {
      SelectFirstFails(answers, from + 1, i);
    }
  }

  // ---------------------------------------------------------------------
  // AppendSubProgram and ConvertSubPrograms

  /** `shaderProgram.m_SubProgramWraps[blobIndex]`, with the exceptions that
      lookup and the later call on the wrap can raise. */
  function WrapOf(program: Option<ProgramTable>, blob: nat): (r: Result<Wrap>)
    ensures r.Ok? <==> program.Some? && blob < |program.value.wraps| && program.value.wraps[blob].Some?
    ensures r.Ok? ==> r.value == program.value.wraps[blob].value
    ensures r.Err? && program.Some? && blob >= |program.value.wraps| ==> r.error == IndexOutOfRange
    ensures r.Err? && (program.None? || blob < |program.value.wraps|) ==> r.error == NullReference
  {
    if program.None? then Err(NullReference)
    else if blob >= |program.value.wraps| then Err(IndexOutOfRange)
    else if program.value.wraps[blob].None? then Err(NullReference)
    else Ok(program.value.wraps[blob].value)
  }

  function InfoPart(info: Option<string>): string
  {
    if info.Some? then info.value + " " else ""
  }

  /** `SubProgram "<platform> <info> " {` on its own line. */
  function SubProgramHeader(ref: SubProgramRef, platform: Platform, level: nat): string
  {
    Line(level, "SubProgram \"" + GetPlatformString(platform) + " ") + InfoPart(ref.info) + "\" {\n"
  }

  function SubProgramFooter(level: nat): string
  {
    "\n" + Line(level, "}\n")
  }

  /** The header, the exported text indented one level deeper, a line break
      and the closing brace. */
  function SubProgramBlock(ref: SubProgramRef, platform: Platform, level: nat, text: string): string
  {
    SubProgramHeader(ref, platform, level) + IndentBlock(text, Indent(level + 1)) + SubProgramFooter(level)
  }

  /** AppendSubProgram: look up the wrap, parse it, export it, frame it. */
  function AppendSubProgram(ref: SubProgramRef, platform: Platform, program: Option<ProgramTable>,
                            level: nat, svc: Services): Result<string>
  {
    var wrap :- WrapOf(program, ref.blobIndex);
    var sp :- ParseSubProgram(wrap.buffer);
    var text :- Export(sp, svc);
    Ok(SubProgramBlock(ref, platform, level, text))
  }

  /** The block holds the exported text exactly: removing the indentation from
      what lies between the header and the closing line gives it back. */
  lemma SubProgramBlockRecovers(ref: SubProgramRef, platform: Platform, level: nat, text: string)
    ensures var r := SubProgramBlock(ref, platform, level, text);
            var h := SubProgramHeader(ref, platform, level);
            var ind := Indent(level + 1);
            var tail := SubProgramFooter(level);
            |h| + |ind| + |tail| <= |r|
            && r[..|h|] == h
            && r[|r| - |tail|..] == tail
            && DropAfterNewlines(r[|h| + |ind|..|r| - |tail|], |ind|) == text
  {
    var h := SubProgramHeader(ref, platform, level);
    var ind := Indent(level + 1);
    var tail := SubProgramFooter(level);
    var body := ReplaceNewlines(text, ind);
    assert SubProgramBlock(ref, platform, level, text) == h + ind + body + tail;
    FramedParts(h, ind, body, tail);
    ReplaceNewlinesRoundTrip(text, ind);
  }

  /** The pieces of a four-part concatenation are found again by position. */
  lemma FramedParts(h: string, ind: string, body: string, tail: string)
    ensures var r := h + ind + body + tail;
            && r[..|h|] == h
            && r[|r| - |tail|..] == tail
            && r[|h| + |ind|..|r| - |tail|] == body
  {
    var r := h + ind + body + tail;
    assert r[..|h|] == h;
    assert r[|r| - |tail|..] == tail;
    assert r[|h| + |ind|..|r| - |tail|] == body;
  }

  /** Every sub-program of a group, for the one selected platform. */
  function AppendAll(g: seq<SubProgramRef>, platform: Platform, program: Option<ProgramTable>,
                     level: nat, svc: Services): Result<string>
    decreases |g|
  {
    if |g| == 0 then Ok("")
    else
      var first :- AppendSubProgram(g[0], platform, program, level, svc);
      var rest :- AppendAll(g[1..], platform, program, level, svc);
      Ok(first + rest)
  }

  /** One (blob index, program type) group, printed for the first compatible
      platform with that platform's program table. */
  function ConvertGroup(g: seq<SubProgramRef>, platforms: seq<Platform>, programs: seq<Option<ProgramTable>>,
                        level: nat, svc: Services): Result<string>
    requires |programs| == |platforms|
  {
    if |g| == 0 then Ok("")
    else
      var selected :- SelectPlatform(platforms, g[0].programType);
      if selected.None? then Ok("")
      else AppendAll(g, platforms[selected.value], programs[selected.value], level, svc)
  }

  function ConvertGroups(gs: seq<seq<SubProgramRef>>, platforms: seq<Platform>, programs: seq<Option<ProgramTable>>,
                         level: nat, svc: Services): Result<string>
    requires |programs| == |platforms|
    decreases |gs|
  {
    if |gs| == 0 then Ok("")
    else
      var first :- ConvertGroup(gs[0], platforms, programs, level, svc);
      var rest :- ConvertGroups(gs[1..], platforms, programs, level, svc);
      Ok(first + rest)
  }

  /** ConvertSubPrograms over the grouped sub-programs. The program tables are
      indexed like the platforms, as the caller builds them. */
  function ConvertSubPrograms(subs: seq<SubProgramRef>, platforms: seq<Platform>, programs: seq<Option<ProgramTable>>,
                              level: nat, svc: Services): Result<string>
    requires |programs| == |platforms|
  {
    ConvertGroups(Groups(subs), platforms, programs, level, svc)
  }

  /** A group is printed with the first compatible platform and its program
      table: the platforms and tables after it are never used. */
  lemma GroupIgnoresLaterPlatforms(g: seq<SubProgramRef>, platforms: seq<Platform>, programs: seq<Option<ProgramTable>>,
                                   level: nat, svc: Services, i: nat)
    requires |programs| == |platforms| && |g| > 0
    requires i < |platforms| && CheckGpuProgramUsable(platforms[i], g[0].programType) == Ok(true)
    requires forall j :: 0 <= j < i ==> CheckGpuProgramUsable(platforms[j], g[0].programType) == Ok(false)
    ensures ConvertGroup(g, platforms, programs, level, svc) == AppendAll(g, platforms[i], programs[i], level, svc)
    ensures ConvertGroup(g, platforms, programs, level, svc)
         == ConvertGroup(g, platforms[..i + 1], programs[..i + 1], level, svc)
  {
    var t := g[0].programType;
    var a := Answers(platforms, t);
    var a' := Answers(platforms[..i + 1], t);
    SelectFirstFound(a, 0, i);
    SelectFirstPrefix(a, 0, i);
    assert a' == a[..i + 1];
    assert platforms[..i + 1][i] == platforms[i];
    assert programs[..i + 1][i] == programs[i];
  }

  lemma {:induction false} SelectFirstFound(answers: seq<Result<bool>>, from: nat, i: nat)
    requires from <= i < |answers| && answers[i] == Ok(true)
    requires forall j :: from <= j < i ==> answers[j] == Ok(false)
    ensures SelectFirst(answers, from) == Ok(Some(i))
    decreases i - from
  {
    if from < i {
      SelectFirstFound(answers, from + 1, i);
    }
  }

  /** A group whose type no platform emits prints nothing. */
  lemma GroupWithoutPlatform(g: seq<SubProgramRef>, platforms: seq<Platform>, programs: seq<Option<ProgramTable>>,
                             level: nat, svc: Services)
    requires |programs| == |platforms| && |g| > 0
    requires forall j :: 0 <= j < |platforms| ==> CheckGpuProgramUsable(platforms[j], g[0].programType) == Ok(false)
    ensures ConvertGroup(g, platforms, programs, level, svc) == Ok("")
  {
    SelectFirstAllNo(Answers(platforms, g[0].programType), 0);
  }

  /** An obsolete platform listed before the first compatible one makes the
      conversion throw NotSupportedException. */
  lemma UnsupportedPlatformFirst(g: seq<SubProgramRef>, platforms: seq<Platform>, programs: seq<Option<ProgramTable>>,
                                 level: nat, svc: Services, i: nat)
    requires |programs| == |platforms| && |g| > 0
    requires i < |platforms| && (platforms[i] in {NaCl, Flash, PSM} || platforms[i].UnmappedPlatform?)
    requires forall j :: 0 <= j < i ==> CheckGpuProgramUsable(platforms[j], g[0].programType) == Ok(false)
    ensures ConvertGroup(g, platforms, programs, level, svc) == Err(NotSupported)
  {
    var t := g[0].programType;
    UsableFailsExactlyOnUnsupported(platforms[i], t);
    SelectFirstFails(Answers(platforms, t), 0, i);
  }
}
