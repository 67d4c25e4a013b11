/** The group listing script: the device groups are sorted by parent id and
    then by name, the total is printed, and the groups follow one line each,
    with a section header whenever the parent changes; a top-level header
    for parent 0, otherwise a header naming the parent group, looked up
    among the sorted groups by id. */
module ListGroups {
  import opened Base
  import opened Text
  import opened Json

  /** What the script prints, line by line, without the text decoration. */
  datatype Line =
    | Total(count: nat)
    | TopLevelHeader
    | NestedHeader(parentName: Json, parentId: int)
    | Entry(id: Json, parent: Json, name: Json)

  /** The lines printed and whether an exception ended the script. */
  datatype Listing = Listing(lines: seq<Line>, crashed: bool)

  type Group = map<string, Json>

  // ------------------------------------------------------------------ sort key

  /** The first half of the sort key, `int(g.get('parentGroupId', 0) or 0)`;
      `None` stands for the exception of `int`. */
  function ParentKey(g: Group): Option<int> {
    var p := GetOr(g, "parentGroupId", JInt(0));
    if !Truthy(p) then Some(0) else PyInt(p)
  }

  /** The parent the display loop computes:
      `int(parent) if parent and parent != '' else 0` with
      `parent = g.get('parentGroupId', '')`. */
  function LoopParent(g: Group): Option<int> {
    var p := GetOr(g, "parentGroupId", JStr(""));
    if Truthy(p) && p != JStr("") then PyInt(p) else Some(0)
  }

  /** The second half of the sort key, `g.get('name', '')`, is compared as
      text. */
  predicate NameIsText(g: Group) {
    GetOr(g, "name", JStr("")).JStr?
  }

  predicate KeyOk(g: Group) {
    ParentKey(g).Some? && NameIsText(g)
  }

  function Parent(g: Group): int
    requires KeyOk(g)
  {
    ParentKey(g).value
  }

  function NameKey(g: Group): string
    requires KeyOk(g)
  {
    GetOr(g, "name", JStr("")).s
  }

  /** Python's `<=` on the key tuples. */
  predicate KeyLe(a: Group, b: Group)
    requires KeyOk(a) && KeyOk(b)
  {
    Parent(a) < Parent(b) || (Parent(a) == Parent(b) && StrLe(NameKey(a), NameKey(b)))
  }

  predicate AllKeyed(gs: seq<Group>) {
    forall g :: g in gs ==> KeyOk(g)
  }

  predicate Sorted(gs: seq<Group>)
    requires AllKeyed(gs)
  {
    forall i :: 0 < i < |gs| ==> KeyLe(gs[i - 1], gs[i])
  }

  // ------------------------------------------------------------------ sorted()

  /** Places `g` before the first element whose key is not smaller, so that
      of two equal keys the one that came first stays first. */
  function Insert(g: Group, gs: seq<Group>): (r: seq<Group>)
    requires KeyOk(g) && AllKeyed(gs)
    ensures multiset(r) == multiset(gs) + multiset{g}
    ensures forall h :: h in r <==> h == g || h in gs
    decreases |gs|
  {
    if gs == [] || KeyLe(g, gs[0]) then [g] + gs
    else
      assert gs == [gs[0]] + gs[1..];
      [gs[0]] + Insert(g, gs[1..])
  }

  /** `sorted(groups, key=...)` once every key is available: a stable
      insertion sort. */
  function SortGroups(gs: seq<Group>): (r: seq<Group>)
    requires AllKeyed(gs)
    ensures multiset(r) == multiset(gs)
    ensures AllKeyed(r)
    decreases |gs|
  {
    if gs == [] then []
    else
      assert gs == [gs[0]] + gs[1..];
      Insert(gs[0], SortGroups(gs[1..]))
  }

  // ------------------------------------------------------------------ display

  /** `pg.get('id')`. */
  function Id(g: Group): Json {
    Get(g, "id")
  }

  /** The lookup `for pg in groups_sorted: if int(pg.get('id')) == parent_int`
      from position `k`: the name of the first match, `'Unknown'` when none
      matches, `None` when `int` raises on an id before a match is found. */
  function ParentName(gs: seq<Group>, p: int, k: nat): Option<Json>
    decreases |gs| - k
  {
    if k >= |gs| then Some(JStr("Unknown"))
    else match PyInt(Id(gs[k]))
      case None => None
      case Some(v) => if v == p then Some(Get(gs[k], "name")) else ParentName(gs, p, k + 1)
  }

  /** The section header for parent `p`. */
  function Header(gs: seq<Group>, p: int): Option<Line> {
    if p == 0 then Some(TopLevelHeader)
    else match ParentName(gs, p, 0)
      case None => None
      case Some(n) => Some(NestedHeader(n, p))
  }

  /** The line of one group: its id, its raw parent value and its name. */
  function EntryOf(g: Group): Line {
    Entry(Id(g), GetOr(g, "parentGroupId", JStr("")), Get(g, "name"))
  }

  /** `f"{gid:4}"` raises `TypeError` for `None`, a list or a dictionary;
      numbers, booleans and strings take the width. */
  predicate Formattable(id: Json) {
    !(id.JNull? || id.JList? || id.JObj?)
  }

  /** What one turn of the display loop prints, the parent of the section
      then open, and whether an exception ended the script during it. */
  datatype Turn = Turn(printed: seq<Line>, next: Option<int>, crashed: bool)

  /** The entry of group `g` after the lines `before` of its turn: printing
      it raises when its id cannot be formatted, after `before` is out. */
  function EntryTurn(g: Group, before: seq<Line>, next: Option<int>): Turn {
    if Formattable(Id(g)) then Turn(before + [EntryOf(g)], next, false) else Turn(before, next, true)
  }

  /** One turn of the display loop on group `i`: `int` on its parent may
      raise before anything is printed, the lookup of a new section's
      parent name may raise before the header, and the entry may raise
      after it. */
  function Step(gs: seq<Group>, i: nat, current: Option<int>): Turn
    requires i < |gs|
  {
    match LoopParent(gs[i])
    case None => Turn([], current, true)
    case Some(p) =>
      if current != Some(p) then
        match Header(gs, p)
        case None => Turn([], current, true)
        case Some(h) => EntryTurn(gs[i], [h], Some(p))
      else EntryTurn(gs[i], [], current)
  }

  /** The display loop from position `i`, with `current` the parent of the
      last section opened and `acc` the lines printed so far. */
  function DisplayFrom(gs: seq<Group>, i: nat, current: Option<int>, acc: seq<Line>): Listing
    decreases |gs| - i
  {
    if i >= |gs| then Listing(acc, false)
    else
      var t := Step(gs, i, current);
      if t.crashed then Listing(acc + t.printed, true)
      else DisplayFrom(gs, i + 1, t.next, acc + t.printed)
  }

  /** The whole script on the groups the client returned: if a sort key
      cannot be computed, `sorted` raises before anything is printed. */
  function ListSpec(groups: seq<Group>): (r: Listing)
    requires forall g :: g in groups ==> NameIsText(g)
    ensures !AllKeyed(groups) ==> r == Listing([], true)
    ensures AllKeyed(groups) ==> |r.lines| >= 1 && r.lines[0] == Total(|groups|)
  {
    if !AllKeyed(groups) then Listing([], true)
    else
      var s := SortGroups(groups);
      assert |s| == |groups| by {
        assert |multiset(s)| == |multiset(groups)|;
      }
      DisplayKeepsPrinted(s, 0, None, [Total(|s|)]);
      DisplayFrom(s, 0, None, [Total(|s|)])
  }

  /** The script's main part, with its two loops. */
  method ListWugGroups(groups: seq<Group>) returns (listing: Listing)
    requires forall g :: g in groups ==> NameIsText(g)
    ensures listing == ListSpec(groups)
  {
    if exists g :: g in groups && ParentKey(g).None? {
      return Listing([], true);
    }
    var s := SortGroups(groups);
    var lines := [Total(|s|)];
    var current: Option<int> := None;
    var i := 0;
    while i < |s|
      invariant 0 <= i <= |s|
      invariant DisplayFrom(s, i, current, lines) == ListSpec(groups)
      decreases |s| - i
    {
      var parent := LoopParent(s[i]);
      if parent.None? {
        assert lines + [] == lines;
        return Listing(lines, true);
      }
      var p := parent.value;
      var before: seq<Line> := [];
      if current != Some(p) {
        var header: Line;
        if p == 0 {
          header := TopLevelHeader;
        } else {
          var name := FindParentName(s, p);
          if name.None? {
            assert lines + [] == lines;
            return Listing(lines, true);
          }
          header := NestedHeader(name.value, p);
        }
        assert Header(s, p) == Some(header);
        before := [header];
      }
      var next := Some(p);
      assert Step(s, i, current) == EntryTurn(s[i], before, next);
      if !Formattable(Id(s[i])) {
        return Listing(lines + before, true);
      }
      assert lines + (before + [EntryOf(s[i])]) == lines + before + [EntryOf(s[i])];
      lines := lines + before + [EntryOf(s[i])];
      current := next;
      i := i + 1;
    }
    return Listing(lines, false);
  }

  /** The inner loop that looks up the parent's name. */
  method FindParentName(gs: seq<Group>, p: int) returns (name: Option<Json>)
    ensures name == ParentName(gs, p, 0)
  {
    name := Some(JStr("Unknown"));
    var k := 0;
    while k < |gs|
      invariant 0 <= k <= |gs|
      invariant ParentName(gs, p, k) == ParentName(gs, p, 0)
      decreases |gs| - k
    {
      var id := PyInt(Id(gs[k]));
      if id.None? {
        return None;
      }
      if id.value == p {
        name := Some(Get(gs[k], "name"));
        return;
      }
      k := k + 1;
    }
  }

  // ------------------------------------------------------------------ properties

  /** The display loop reads the parent the sort used: a missing or falsy
      `parentGroupId` is 0 for both. */
  lemma LoopParentIsSortKey(g: Group)
    ensures LoopParent(g) == ParentKey(g)
  {
  }

  lemma InsertKeepsOrder(g: Group, gs: seq<Group>)
    requires KeyOk(g) && AllKeyed(gs) && Sorted(gs)
    ensures AllKeyed(Insert(g, gs)) && Sorted(Insert(g, gs))
    ensures gs != [] ==> Insert(g, gs)[0] == g || Insert(g, gs)[0] == gs[0]
    decreases |gs|
  {
    if gs != [] && !KeyLe(g, gs[0]) {
      InsertKeepsOrder(g, gs[1..]);
      StrLeTotal(NameKey(g), NameKey(gs[0]));
    }
  }

  /** The sorted groups are in key order and are the same groups. */
  lemma {:induction false} SortGroupsSorted(gs: seq<Group>)
    requires AllKeyed(gs)
    ensures Sorted(SortGroups(gs)) && multiset(SortGroups(gs)) == multiset(gs)
    decreases |gs|
  {
    if gs != [] {
      SortGroupsSorted(gs[1..]);
      InsertKeepsOrder(gs[0], SortGroups(gs[1..]));
    }
  }

  /** Two groups whose sort keys are equal. */
  predicate SameKey(a: Group, b: Group)
    requires KeyOk(a) && KeyOk(b)
  {
    Parent(a) == Parent(b) && NameKey(a) == NameKey(b)
  }

  /** The groups of `gs` whose key equals that of `k`, in their order. */
  function WithKey(gs: seq<Group>, k: Group): seq<Group>
    requires AllKeyed(gs) && KeyOk(k)
    decreases |gs|
  {
    if gs == [] then []
    else
      assert gs[0] in gs && forall h :: h in gs[1..] ==> h in gs;
      (if SameKey(gs[0], k) then [gs[0]] else []) + WithKey(gs[1..], k)
  }

  lemma WithKeyCons(h: Group, t: seq<Group>, k: Group)
    requires KeyOk(h) && AllKeyed(t) && KeyOk(k)
    ensures AllKeyed([h] + t)
    ensures WithKey([h] + t, k) == (if SameKey(h, k) then [h] else []) + WithKey(t, k)
  {
    assert ([h] + t)[0] == h && ([h] + t)[1..] == t;
  }

  lemma SameKeyLe(g: Group, h: Group, k: Group)
    requires KeyOk(g) && KeyOk(h) && KeyOk(k) && SameKey(g, k) && SameKey(h, k)
    ensures KeyLe(g, h)
  {
    StrLeTotal(NameKey(g), NameKey(g));
  }

  /** `g` only ever passes groups with a smaller key. */
  lemma {:induction false} InsertStable(g: Group, gs: seq<Group>, k: Group)
    requires KeyOk(g) && AllKeyed(gs) && KeyOk(k)
    ensures WithKey(Insert(g, gs), k) == (if SameKey(g, k) then [g] else []) + WithKey(gs, k)
    decreases |gs|
  {
    if gs == [] || KeyLe(g, gs[0]) {
      WithKeyCons(g, gs, k);
    } else {
      InsertStep(g, gs);
      var h, t := gs[0], gs[1..];
      var rest := Insert(g, t);
      InsertStable(g, t, k);
      WithKeyCons(h, rest, k);
      WithKeyCons(h, t, k);
      if SameKey(h, k) && SameKey(g, k) {
        SameKeyLe(g, h, k);
        assert false;
      }
    }
  }

  /** `Insert` passing the first group. */
  lemma InsertStep(g: Group, gs: seq<Group>)
    requires KeyOk(g) && AllKeyed(gs) && gs != [] && !KeyLe(g, gs[0])
    ensures KeyOk(gs[0]) && AllKeyed(gs[1..]) && gs == [gs[0]] + gs[1..]
    ensures Insert(g, gs) == [gs[0]] + Insert(g, gs[1..])
  {
    assert gs[0] in gs;
  }

  /** `sorted` is stable: the groups with any one key come out in the order
      they came in. */
  lemma {:induction false} SortGroupsStable(gs: seq<Group>, k: Group)
    requires AllKeyed(gs) && KeyOk(k)
    ensures WithKey(SortGroups(gs), k) == WithKey(gs, k)
    decreases |gs|
  {
    if gs != [] {
      assert gs[0] in gs;
      SortGroupsStable(gs[1..], k);
      InsertStable(gs[0], SortGroups(gs[1..]), k);
    }
  }

  /** In sorted groups the parents never decrease. */
  lemma {:induction false} ParentsNondecreasing(gs: seq<Group>, i: int, j: int)
    requires AllKeyed(gs) && Sorted(gs) && 0 <= i <= j < |gs|
    ensures Parent(gs[i]) <= Parent(gs[j])
    decreases j - i
  {
    if i < j {
      ParentsNondecreasing(gs, i, j - 1);
    }
  }

  /** A section starts at position `i` when its parent differs from the
      previous group's. */
  predicate HeaderAt(gs: seq<Group>, i: int)
    requires AllKeyed(gs) && 0 <= i < |gs|
  {
    i == 0 || Parent(gs[i]) != Parent(gs[i - 1])
  }

  /** In sorted groups the sections have strictly increasing parents, so no
      parent gets two headers, and every group lies in the section of its
      own parent. */
  lemma SectionsOnePerParent(gs: seq<Group>)
    requires AllKeyed(gs) && Sorted(gs)
    ensures forall i, j :: 0 <= i < j < |gs| && HeaderAt(gs, i) && HeaderAt(gs, j) ==>
              Parent(gs[i]) < Parent(gs[j])
    ensures forall j :: 0 <= j < |gs| ==> InSection(gs, j)
  {
    forall i, j | 0 <= i < j < |gs| && HeaderAt(gs, i) && HeaderAt(gs, j)
      ensures Parent(gs[i]) < Parent(gs[j])
    {
      ParentsNondecreasing(gs, i, j - 1);
    }
    forall j | 0 <= j < |gs|
      ensures InSection(gs, j)
    {
      var i := SectionStart(gs, j);
      SectionWitness(gs, i, j);
    }
  }

  /** Group `j` lies in a section opened for its own parent at or before it. */
  ghost predicate InSection(gs: seq<Group>, j: int)
    requires AllKeyed(gs) && 0 <= j < |gs|
  {
    exists i :: 0 <= i <= j && HeaderAt(gs, i) && Parent(gs[i]) == Parent(gs[j])
  }

  lemma {:induction false} SectionStart(gs: seq<Group>, j: int) returns (i: int)
    requires AllKeyed(gs) && 0 <= j < |gs|
    ensures 0 <= i <= j && HeaderAt(gs, i) && Parent(gs[i]) == Parent(gs[j])
    decreases j
  {
    if HeaderAt(gs, j) {
      i := j;
    } else {
      i := SectionStart(gs, j - 1);
    }
  }

  lemma SectionWitness(gs: seq<Group>, i: int, j: int)
    requires AllKeyed(gs) && 0 <= i <= j < |gs| && HeaderAt(gs, i) && Parent(gs[i]) == Parent(gs[j])
    ensures InSection(gs, j)
  {
  }

  /** The entry lines among `lines`. */
  function Entries(lines: seq<Line>): (r: seq<Line>)
    ensures |r| <= |lines|
    decreases |lines|
  {
    if lines == [] then []
    else (if lines[0].Entry? then [lines[0]] else []) + Entries(lines[1..])
  }

  lemma {:induction false} EntriesAppend(a: seq<Line>, b: seq<Line>)
    ensures Entries(a + b) == Entries(a) + Entries(b)
    decreases |a|
  {
    if a != [] {
      var h := if a[0].Entry? then [a[0]] else [];
      assert (a + b)[0] == a[0];
      assert (a + b)[1..] == a[1..] + b;
      assert Entries(a + b) == h + Entries(a[1..] + b);
      EntriesAppend(a[1..], b);
      assert Entries(a + b) == h + Entries(a[1..]) + Entries(b);
    } else {
      assert a + b == b;
    }
  }

  function EntryList(gs: seq<Group>): (r: seq<Line>)
    ensures |r| == |gs|
    ensures forall i :: 0 <= i < |gs| ==> r[i] == EntryOf(gs[i])
  {
    seq(|gs|, i requires 0 <= i < |gs| => EntryOf(gs[i]))
  }

  /** A turn prints the entry of its group exactly when it does not crash,
      and no other entry; a group whose id cannot be formatted always
      crashes its turn. */
  lemma StepPrintsOneEntry(gs: seq<Group>, i: nat, current: Option<int>)
    requires i < |gs|
    ensures var t := Step(gs, i, current);
            Entries(t.printed) == (if t.crashed then [] else [EntryOf(gs[i])])
    ensures !Formattable(Id(gs[i])) ==> Step(gs, i, current).crashed
  {
    var t := Step(gs, i, current);
    var step := t.printed;
    if |step| == 2 {
      assert step[1..] == [EntryOf(gs[i])];
      assert step[1..][1..] == [];
    } else if |step| == 1 {
      assert step[1..] == [];
    }
  }

  /** The loop only ever appends to what is already printed. */
  lemma {:induction false} DisplayKeepsPrinted(gs: seq<Group>, i: nat, current: Option<int>, acc: seq<Line>)
    ensures |acc| <= |DisplayFrom(gs, i, current, acc).lines|
    ensures DisplayFrom(gs, i, current, acc).lines[..|acc|] == acc
    decreases |gs| - i
  {
    if i < |gs| {
      var t := Step(gs, i, current);
      if t.crashed {
        assert (acc + t.printed)[..|acc|] == acc;
      } else {
        DisplayKeepsPrinted(gs, i + 1, t.next, acc + t.printed);
        var l := DisplayFrom(gs, i + 1, t.next, acc + t.printed).lines;
        assert l[..|acc|] == l[..|acc + t.printed|][..|acc|];
      }
    }
  }

  lemma EntryListSplit(gs: seq<Group>, i: nat)
    requires i < |gs|
    ensures EntryList(gs[i..]) == [EntryOf(gs[i])] + EntryList(gs[i + 1..])
  {
    assert EntryList(gs[i..])[1..] == EntryList(gs[i + 1..]);
  }

  /** The entries printed from position `i` on, extending `acc`. */
  function Remaining(gs: seq<Group>, i: nat, acc: seq<Line>): seq<Line>
    requires i <= |gs|
  {
    Entries(acc) + EntryList(gs[i..])
  }

  /** One turn of the loop that does not crash moves one entry from what
      remains into what is printed. */
  lemma StepKeepsRemaining(gs: seq<Group>, i: nat, current: Option<int>, acc: seq<Line>)
    requires i < |gs| && !Step(gs, i, current).crashed
    ensures Remaining(gs, i + 1, acc + Step(gs, i, current).printed) == Remaining(gs, i, acc)
  {
    StepPrintsOneEntry(gs, i, current);
    EntriesAppend(acc, Step(gs, i, current).printed);
    EntryListSplit(gs, i);
  }

  /** From position `i` the loop prints the entries of the remaining groups
      once each and in order, when no exception stops it. */
  lemma {:induction false} DisplayPrintsEachOnce(gs: seq<Group>, i: nat, current: Option<int>, acc: seq<Line>)
    requires i <= |gs|
    ensures !DisplayFrom(gs, i, current, acc).crashed ==>
              Entries(DisplayFrom(gs, i, current, acc).lines) == Remaining(gs, i, acc)
    decreases |gs| - i
  {
    if i < |gs| {
      var t := Step(gs, i, current);
      if !t.crashed {
        StepKeepsRemaining(gs, i, current, acc);
        DisplayPrintsEachOnce(gs, i + 1, t.next, acc + t.printed);
      }
    } else {
      assert EntryList(gs[i..]) == [];
    }
  }

  /** When an exception stops the loop, what it printed is a prefix of the
      entries of the remaining groups. */
  lemma {:induction false} DisplayPrintsPrefix(gs: seq<Group>, i: nat, current: Option<int>, acc: seq<Line>)
    requires i <= |gs|
    ensures var printed := Entries(DisplayFrom(gs, i, current, acc).lines);
            |printed| <= |Remaining(gs, i, acc)| && Remaining(gs, i, acc)[..|printed|] == printed
    decreases |gs| - i
  {
    if i < |gs| {
      var t := Step(gs, i, current);
      StepPrintsOneEntry(gs, i, current);
      if t.crashed {
        EntriesAppend(acc, t.printed);
        assert Entries(acc + t.printed) == Entries(acc);
        assert Remaining(gs, i, acc)[..|Entries(acc)|] == Entries(acc);
      } else {
        StepKeepsRemaining(gs, i, current, acc);
        DisplayPrintsPrefix(gs, i + 1, t.next, acc + t.printed);
      }
    } else {
      assert EntryList(gs[i..]) == [];
    }
  }

  /** The listing starts with the number of groups and, when it runs to the
      end, holds one entry per group in sorted order; a run stopped by an
      exception printed the entries of a prefix of the sorted groups. */
  lemma ListingReportsEveryGroup(groups: seq<Group>)
    requires forall g :: g in groups ==> NameIsText(g)
    requires AllKeyed(groups)
    ensures var l := ListSpec(groups);
            var printed := Entries(l.lines);
            var all := EntryList(SortGroups(groups));
            |l.lines| >= 1 && l.lines[0] == Total(|groups|)
            && |printed| <= |all| && all[..|printed|] == printed
            && (!l.crashed ==> printed == all)
  {
    var s := SortGroups(groups);
    assert |s| == |groups| by {
      assert |multiset(s)| == |multiset(groups)|;
    }
    DisplayKeepsPrinted(s, 0, None, [Total(|s|)]);
    DisplayPrintsEachOnce(s, 0, None, [Total(|s|)]);
    DisplayPrintsPrefix(s, 0, None, [Total(|s|)]);
    assert s[0..] == s;
    assert Entries([Total(|s|)]) == [];
  }

  /** The loop opens a section exactly where `HeaderAt` holds: the header
      printed before group `i` is the top-level one for parent 0 and
      otherwise names the parent found by the lookup; a failed lookup stops
      the loop before the header. */
  lemma DisplayHeaders(gs: seq<Group>, i: nat)
    requires AllKeyed(gs) && 0 <= i < |gs|
    ensures var current := if i == 0 then None else Some(Parent(gs[i - 1]));
            var p := Parent(gs[i]);
            (HeaderAt(gs, i) && Header(gs, p).Some? ==>
               Step(gs, i, current) == EntryTurn(gs[i], [Header(gs, p).value], Some(p)))
            && (HeaderAt(gs, i) && Header(gs, p).None? ==> Step(gs, i, current) == Turn([], current, true))
            && (!HeaderAt(gs, i) ==> Step(gs, i, current) == EntryTurn(gs[i], [], Some(p)))
            && (Header(gs, p) == Some(TopLevelHeader) <==> p == 0)
  {
    assert gs[i] in gs;
    LoopParentIsSortKey(gs[i]);
    if i > 0 {
      assert gs[i - 1] in gs;
    }
  }

  /** A group without an id stops the listing right after its section
      header: `f"{None:4}"` raises. */
  lemma MissingIdStopsAfterHeader(name: string)
    ensures ListSpec([map["name" := JStr(name)]]) == Listing([Total(1), TopLevelHeader], true)
  {
    var g: Group := map["name" := JStr(name)];
    assert SortGroups([g]) == [g];
    assert Step([g], 0, None) == Turn([TopLevelHeader], Some(0), true);
  }

  /** `int(pg.get('id'))`. */
  function IdValue(g: Group): Option<int> {
    PyInt(Id(g))
  }

  /** Every id from `k` up to `j` is an integer and none is `p`. */
  predicate NoMatchBefore(gs: seq<Group>, p: int, k: int, j: int)
    requires 0 <= k && j <= |gs|
  {
    forall l :: k <= l < j ==> IdValue(gs[l]).Some? && IdValue(gs[l]).value != p
  }

  /** An id that `int` rejects is reached before any match. */
  ghost predicate FailsBeforeMatch(gs: seq<Group>, p: int, k: nat) {
    exists j :: k <= j < |gs| && IdValue(gs[j]).None? && NoMatchBefore(gs, p, k, j)
  }

  /** The lookup fails exactly when an id that `int` rejects comes before
      any match. */
  lemma {:induction false} ParentNameFails(gs: seq<Group>, p: int, k: nat)
    ensures ParentName(gs, p, k).None? <==> FailsBeforeMatch(gs, p, k)
    decreases |gs| - k
  {
    if k < |gs| {
      if IdValue(gs[k]).None? {
        assert k <= k < |gs| && IdValue(gs[k]).None? && NoMatchBefore(gs, p, k, k);
      } else if IdValue(gs[k]).value != p {
        ParentNameFails(gs, p, k + 1);
        if FailsBeforeMatch(gs, p, k + 1) {
          var j :| k + 1 <= j < |gs| && IdValue(gs[j]).None? && NoMatchBefore(gs, p, k + 1, j);
          assert k <= j < |gs| && IdValue(gs[j]).None? && NoMatchBefore(gs, p, k, j);
        }
        if FailsBeforeMatch(gs, p, k) {
          var j :| k <= j < |gs| && IdValue(gs[j]).None? && NoMatchBefore(gs, p, k, j);
          assert k + 1 <= j < |gs| && IdValue(gs[j]).None? && NoMatchBefore(gs, p, k + 1, j);
        }
      }
    }
  }

  /** The parent's name is the name of the first group whose id is the
      parent id. */
  lemma {:induction false} ParentNameFound(gs: seq<Group>, p: int, k: nat, j: nat)
    requires k <= j < |gs| && IdValue(gs[j]) == Some(p) && NoMatchBefore(gs, p, k, j)
    ensures ParentName(gs, p, k) == Some(Get(gs[j], "name"))
    decreases j - k
  {
    if k < j {
      ParentNameFound(gs, p, k + 1, j);
    }
  }

  /** With no matching id the parent is `'Unknown'`. */
  lemma {:induction false} ParentNameUnknown(gs: seq<Group>, p: int, k: nat)
    requires k <= |gs| && NoMatchBefore(gs, p, k, |gs|)
    ensures ParentName(gs, p, k) == Some(JStr("Unknown"))
    decreases |gs| - k
  {
    if k < |gs| {
      ParentNameUnknown(gs, p, k + 1);
    }
  }
}
