/** Role permissions and the token-scope vocabulary (src/common/access.c).
    A scope list is a comma-joined list of distinct names; the parser takes the
    names in any order and the printer emits them in vocabulary order.
    A 32-bit permission mask is modelled as the set of its bit positions. */
module Access {
  import opened Base

  type Mask = set<nat>

  const SCOPE_TEXT_MAX: nat := 192
  const SCOPE_COUNT: nat := 12
  const PERMISSION_ALL: Mask := set i: nat | i < SCOPE_COUNT

  const ADMINISTRATOR: int := 1
  const OPERATOR: int := 2
  const AUDITOR: int := 3

  predicate RoleValid(role: int) {
    ADMINISTRATOR <= role <= AUDITOR
  }

  function RolePermissions(role: int): Mask {
    if role == ADMINISTRATOR then PERMISSION_ALL
    else if role == OPERATOR then {0, 1, 2, 3, 5, 11}
    else if role == AUDITOR then {0, 1, 3, 4, 11}
    else {}
  }

  predicate Grants(granted: Mask, required: Mask) {
    && required != {}
    && granted + required <= PERMISSION_ALL
    && granted * required == required
  }

  /** The vocabulary in canonical order; scope `i` is permission bit `i`. */
  function ScopeName(i: nat): string
    requires i < SCOPE_COUNT
  {
    match i
    case 0 => "status:read"
    case 1 => "policy:read"
    case 2 => "policy:write"
    case 3 => "events:read"
    case 4 => "audit:read"
    case 5 => "operate"
    case 6 => "network:write"
    case 7 => "access:write"
    case 8 => "security:write"
    case 9 => "backups:write"
    case 10 => "system:write"
    case _ => "metrics:read"
  }

  // ---- The grammar: what a scope list is, and what it means ----

  predicate Distinct(ids: seq<nat>) {
    && (forall k :: 0 <= k < |ids| ==> ids[k] < SCOPE_COUNT)
    && (forall j, k :: 0 <= j < k < |ids| ==> ids[j] != ids[k])
  }

  /** Comma-joined text of a list of names. */
  function Join(names: seq<string>): string {
    if names == [] then ""
    else if |names| == 1 then names[0]
    else names[0] + "," + Join(names[1..])
  }

  function Names(ids: seq<nat>): (names: seq<string>)
    requires Distinct(ids)
    ensures |names| == |ids|
  {
    seq(|ids|, k requires 0 <= k < |ids| => ScopeName(ids[k]))
  }

  function MaskOf(ids: seq<nat>): Mask {
    set i | i in ids
  }

  // ---- The parser ----

  /** Size of the first comma-delimited item. */
  function Cut(text: string): (n: nat)
    ensures n <= |text|
    ensures forall k :: 0 <= k < n ==> text[k] != ','
    ensures n < |text| ==> text[n] == ','
  {
    if text == [] || text[0] == ',' then 0 else 1 + Cut(text[1..])
  }

  lemma NamesDistinct(i: nat, j: nat)
    requires i < SCOPE_COUNT && j < SCOPE_COUNT && ScopeName(i) == ScopeName(j)
    ensures i == j
  {
    assert |ScopeName(i)| == |ScopeName(j)| && ScopeName(i)[0] == ScopeName(j)[0];
  }

  predicate IsNamed(i: nat, name: string) {
    i < SCOPE_COUNT && ScopeName(i) == name
  }

  lemma NamedOnce(name: string)
    ensures forall i, j :: IsNamed(i, name) && IsNamed(j, name) ==> i == j
  {
    forall i, j | IsNamed(i, name) && IsNamed(j, name) ensures i == j { NamesDistinct(i, j); }
  }

  /** The scope of an exact name, if it is in the vocabulary. */
  function Find(name: string): (scope: Option<nat>)
    ensures scope.Some? ==> IsNamed(scope.value, name)
    ensures scope.None? ==> forall i :: !IsNamed(i, name)
  {
    if exists i :: 0 <= i < SCOPE_COUNT && IsNamed(i, name) then
      NamedOnce(name);
      var i: nat :| i < SCOPE_COUNT && IsNamed(i, name);
      Some(i)
    else None
  }

  /** The first item: the names seen with it, and where the next item starts. */
  function Item(text: string, parsed: Mask): (r: Result<(Mask, nat)>)
    requires text != []
    ensures r.Ok? ==> 0 < r.value.1 <= |text|
  {
    var n := Cut(text);
    var scope := Find(text[..n]);
    if scope.None? || scope.value in parsed then Err(EINVAL)
    else if n == |text| then Ok((parsed + {scope.value}, n))
    else if n + 1 == |text| then Err(EINVAL)
    else Ok((parsed + {scope.value}, n + 1))
  }

  function ParseItems(text: string, parsed: Mask): Result<Mask>
    requires text != []
    decreases |text|
  {
    match Item(text, parsed)
    case Err(e) => Err(e)
    case Ok((more, n)) => if n == |text| then Ok(more) else ParseItems(text[n..], more)
  }

  /** What `jg_access_scope_parse` answers for a null-terminated text. */
  function Parse(text: string): Result<Mask> {
    if text == [] || |text| > SCOPE_TEXT_MAX then Err(EINVAL) else ParseItems(text, {})
  }

  method FindScope(name: string) returns (scope: Option<nat>)
    ensures scope == Find(name)
  {
    for index := 0 to SCOPE_COUNT
      invariant forall k :: 0 <= k < index ==> !IsNamed(k, name)
    {
      if |ScopeName(index)| == |name| && ScopeName(index) == name {
        NamedOnce(name);
        assert IsNamed(index, name);
        return Some(index);
      }
    }
    return None;
  }

  method ItemSize(text: string, offset: nat) returns (size: nat)
    requires offset < |text|
    ensures size == Cut(text[offset..])
  {
    ghost var rest := text[offset..];
    size := 0;
    while offset + size < |text| && text[offset + size] != ','
      invariant offset + size <= |text|
      invariant forall k :: 0 <= k < size ==> rest[k] != ','
    {
      size := size + 1;
    }
  }

  method ScopeParse(text: string) returns (r: Result<Mask>)
    ensures r == Parse(text)
  {
    var textSize := 0;
    while textSize <= SCOPE_TEXT_MAX && textSize < |text|
      invariant textSize <= |text| && textSize <= SCOPE_TEXT_MAX + 1
    {
      textSize := textSize + 1;
    }
    if textSize == 0 || textSize > SCOPE_TEXT_MAX {
      return Err(EINVAL);
    }
    r := ParseAll(text);
  }

  /** One turn of the parsing loop: a new name at `offset`, and what follows it. */
  method ParseItem(text: string, offset: nat, parsed: Mask) returns (r: Result<(Mask, nat)>)
    requires offset < |text|
    ensures r == Item(text[offset..], parsed)
  {
    var size := ItemSize(text, offset);
    var name := text[offset..offset + size];
    assert name == text[offset..][..size];
    var scope := FindScope(name);
    if scope.None? || scope.value in parsed {
      return Err(EINVAL);
    }
    if offset + size < |text| {
      size := size + 1;
      if offset + size == |text| {
        return Err(EINVAL);
      }
    }
    r := Ok((parsed + {scope.value}, size));
  }

  method ParseAll(text: string) returns (r: Result<Mask>)
    requires text != []
    ensures r == ParseItems(text, {})
  {
    var offset: nat, parsed: Mask := 0, {};
    assert text[offset..] == text;
    while offset < |text|
      invariant offset <= |text|
      invariant offset < |text| ==> ParseItems(text, {}) == ParseItems(text[offset..], parsed)
      invariant offset == |text| ==> ParseItems(text, {}) == Ok(parsed)
    {
      var item := ParseItem(text, offset, parsed);
      if item.Err? { return Err(item.error); }
      assert text[offset..][item.value.1..] == text[offset + item.value.1..];
      parsed, offset := item.value.0, offset + item.value.1;
    }
    return Ok(parsed);
  }

  // ---- Facts about comma-joined text ----

  /** Nonempty names without commas. */
  predicate Plain(names: seq<string>) {
    forall k :: 0 <= k < |names| ==> names[k] != [] && NoComma(names[k])
  }

  predicate NoComma(name: string) {
    forall k :: 0 <= k < |name| ==> name[k] != ','
  }

  lemma CutAfter(name: string, rest: string)
    requires NoComma(name) && (rest == [] || rest[0] == ',')
    ensures Cut(name + rest) == |name|
  {
    assert forall k :: 0 <= k < |name| ==> (name + rest)[k] == name[k];
    assert rest != [] ==> (name + rest)[|name|] == rest[0];
  }

  /** Cutting a list after its first name leaves the rest of the list. */
  lemma JoinHead(names: seq<string>)
    requires names != [] && Plain(names)
    ensures Join(names) != []
    ensures var n := Cut(Join(names));
            && n == |names[0]| && Join(names)[..n] == names[0]
            && (|names| == 1 <==> n == |Join(names)|)
            && (|names| > 1 ==> Join(names)[n + 1..] == Join(names[1..]) != [])
  {
    var name := names[0];
    if |names| == 1 {
      CutAfter(name, "");
      assert name + "" == name;
    } else {
      var rest := "," + Join(names[1..]);
      CutAfter(name, rest);
      assert Join(names) == name + rest;
      assert names[1] != [];
    }
  }

  lemma {:induction false} JoinSnoc(names: seq<string>, name: string)
    ensures Join(names + [name]) == if names == [] then name else Join(names) + "," + name
  {
    if |names| == 1 {
      assert (names + [name])[1..] == [name];
    } else if |names| > 1 {
      var head, rest := names[0], names[1..];
      JoinSnoc(rest, name);
      assert (names + [name])[1..] == rest + [name];
      assert head + "," + (Join(rest) + "," + name) == head + "," + Join(rest) + "," + name;
    }
  }

  // ---- Facts about the vocabulary ----

  lemma NameShape(i: nat)
    requires i < SCOPE_COUNT
    ensures 7 <= |ScopeName(i)| <= 14 && NoComma(ScopeName(i))
  {
    match i
    case 0 => case 1 => case 2 => case 3 =>
    case 4 => case 5 => case 6 => case 7 =>
    case _ =>
  }

  lemma NamesPlain(ids: seq<nat>)
    requires Distinct(ids)
    ensures Plain(Names(ids))
  {
    forall k | 0 <= k < |ids| ensures Names(ids)[k] != [] && NoComma(Names(ids)[k]) {
      NameShape(ids[k]);
    }
  }

  lemma FindByName(i: nat)
    requires i < SCOPE_COUNT
    ensures Find(ScopeName(i)) == Some(i)
  {
    assert IsNamed(i, ScopeName(i));
    NamedOnce(ScopeName(i));
  }

  // ---- The parser accepts exactly the grammar ----

  lemma NamesTail(ids: seq<nat>)
    requires ids != [] && Distinct(ids)
    ensures Names(ids)[0] == ScopeName(ids[0]) && Names(ids)[1..] == Names(ids[1..])
  {
  }

  /** Parsing a joined list of names not seen yet adds exactly those names. */
  lemma {:induction false} ParseComplete(ids: seq<nat>, parsed: Mask)
    requires ids != [] && Distinct(ids)
    requires forall i :: i in ids ==> i !in parsed
    ensures Join(Names(ids)) != [] && ParseItems(Join(Names(ids)), parsed) == Ok(parsed + MaskOf(ids))
    decreases |ids|
  {
    NamesPlain(ids);
    JoinHead(Names(ids));
    NamesTail(ids);
    FindByName(ids[0]);
    var rest := ids[1..];
    if rest != [] {
      assert forall i :: i in rest ==> i in ids && i != ids[0];
      ParseComplete(rest, parsed + {ids[0]});
      assert parsed + MaskOf(ids) == parsed + {ids[0]} + MaskOf(rest);
    } else {
      assert MaskOf(ids) == {ids[0]};
    }
  }

  lemma NamesCons(i: nat, rest: seq<nat>)
    requires i < SCOPE_COUNT && i !in rest && Distinct(rest)
    ensures Distinct([i] + rest)
    ensures Join(Names([i] + rest)) == if rest == [] then ScopeName(i) else ScopeName(i) + "," + Join(Names(rest))
  {
    assert Names([i] + rest) == [ScopeName(i)] + Names(rest);
    assert Names([i] + rest)[1..] == Names(rest);
  }

  /** The step of an accepting parse: a new known name, then a list that parses. */
  lemma AcceptedStep(text: string, parsed: Mask) returns (i: nat)
    requires text != [] && ParseItems(text, parsed).Ok?
    ensures i < SCOPE_COUNT && i !in parsed
    ensures var n := Cut(text);
            && text[..n] == ScopeName(i)
            && (n < |text| ==> n + 1 < |text| && ParseItems(text[n + 1..], parsed + {i}).Ok?)
  {
    i := Find(text[..Cut(text)]).value;
  }

  lemma CutAtComma(text: string, n: nat)
    requires n < |text| && text[n] == ','
    ensures text == text[..n] + "," + text[n + 1..]
  {
  }

  lemma {:induction false} ParseSound(text: string, parsed: Mask) returns (ids: seq<nat>)
    requires text != [] && ParseItems(text, parsed).Ok?
    ensures ids != [] && Distinct(ids) && text == Join(Names(ids))
    ensures forall i :: i in ids ==> i !in parsed
    decreases |text|
  {
    var n := Cut(text);
    var i := AcceptedStep(text, parsed);
    var rest := [];
    if n == |text| {
      assert text[..n] == text;
    } else {
      rest := ParseSound(text[n + 1..], parsed + {i});
      assert i in parsed + {i};
      CutAtComma(text, n);
    }
    NamesCons(i, rest);
    ids := [i] + rest;
  }

  // ---- The printer ----

  /** Indices below `n` held by a mask, in vocabulary order. */
  function CanonTo(mask: Mask, n: nat): (ids: seq<nat>)
    requires n <= SCOPE_COUNT
    ensures forall k :: 0 <= k < |ids| ==> ids[k] < n && ids[k] in mask
    ensures forall j, k :: 0 <= j < k < |ids| ==> ids[j] < ids[k]
    ensures forall i :: i in mask && i < n ==> i in ids
  {
    if n == 0 then []
    else if n - 1 in mask then CanonTo(mask, n - 1) + [n - 1]
    else CanonTo(mask, n - 1)
  }

  /** Canonical text of the part of a mask below `n`. */
  function PrintTo(mask: Mask, n: nat): string
    requires n <= SCOPE_COUNT
  {
    Join(Names(CanonTo(mask, n)))
  }

  function Print(mask: Mask): string {
    PrintTo(mask, SCOPE_COUNT)
  }

  lemma PrintStep(mask: Mask, i: nat)
    requires i < SCOPE_COUNT
    ensures PrintTo(mask, i + 1) ==
            if i !in mask then PrintTo(mask, i)
            else if PrintTo(mask, i) == [] then ScopeName(i)
            else PrintTo(mask, i) + "," + ScopeName(i)
  {
    if i in mask {
      var ids := CanonTo(mask, i);
      assert Names(ids + [i]) == Names(ids) + [ScopeName(i)];
      JoinSnoc(Names(ids), ScopeName(i));
      if ids != [] {
        NamesPlain(ids);
        JoinHead(Names(ids));
      }
    }
  }

  lemma {:induction false} PrintGrows(mask: Mask, i: nat, j: nat)
    requires i <= j <= SCOPE_COUNT
    ensures |PrintTo(mask, i)| <= |PrintTo(mask, j)|
    decreases j - i
  {
    if i < j {
      PrintGrowsOnce(mask, i);
      PrintGrows(mask, i + 1, j);
    }
  }

  lemma PrintGrowsOnce(mask: Mask, i: nat)
    requires i < SCOPE_COUNT
    ensures |PrintTo(mask, i)| <= |PrintTo(mask, i + 1)|
  {
    PrintStep(mask, i);
  }

  method AppendText(output: array<char>, offset: nat, text: string) returns (ok: bool, next: nat)
    requires offset < output.Length
    modifies output
    ensures ok <==> offset + |text| < output.Length
    ensures ok ==> next == offset + |text|
    ensures ok ==> output[..next] == old(output[..offset]) + text && output[next] == '\0'
    ensures !ok ==> next == offset && output[..] == old(output[..])
  {
    if |text| >= output.Length || offset > output.Length - |text| - 1 {
      return false, offset;
    }
    var i := 0;
    while i < |text|
      invariant i <= |text|
      invariant output[..offset] == old(output[..offset])
      invariant output[offset..offset + i] == text[..i]
    {
      output[offset + i] := text[i];
      i := i + 1;
    }
    next := offset + |text|;
    output[next] := '\0';
    assert output[..next] == output[..offset] + output[offset..next];
    ok := true;
  }

  /** A buffer that starts with a text and its terminating zero. */
  predicate Holds(buffer: string, text: string) {
    |text| < |buffer| && buffer[..|text|] == text && buffer[|text|] == '\0'
  }

  /** The printing loop up to vocabulary entry `index`, at `offset` in the buffer. */
  predicate PrintedTo(buffer: string, offset: nat, permissions: Mask, index: nat)
    requires index <= SCOPE_COUNT
  {
    offset == |PrintTo(permissions, index)| && Holds(buffer, PrintTo(permissions, index))
  }

  /** One vocabulary entry of the printing loop. */
  method AppendScope(permissions: Mask, index: nat, output: array<char>, offset: nat)
    returns (ok: bool, next: nat)
    requires index < SCOPE_COUNT && PrintedTo(output[..], offset, permissions, index)
    modifies output
    ensures ok <==> |PrintTo(permissions, index + 1)| < output.Length
    ensures ok ==> PrintedTo(output[..], next, permissions, index + 1)
  {
    PrintStep(permissions, index);
    ok, next := true, offset;
    if index in permissions {
      if offset != 0 {
        ok, next := AppendText(output, offset, ",");
      }
      if ok {
        ok, next := AppendText(output, next, ScopeName(index));
      }
    }
  }

  /** The printing loop: it stops at the first entry that does not fit. */
  method FormatAll(permissions: Mask, output: array<char>) returns (ok: bool)
    requires output.Length > 0
    modifies output
    ensures ok <==> |Print(permissions)| < output.Length
    ensures ok ==> Holds(output[..], Print(permissions))
  {
    output[0] := '\0';
    var offset: nat, index := 0, 0;
    ok := true;
    while ok && index < SCOPE_COUNT
      invariant index <= SCOPE_COUNT
      invariant ok ==> PrintedTo(output[..], offset, permissions, index)
      invariant !ok ==> |PrintTo(permissions, index)| >= output.Length
    {
      ok, offset := AppendScope(permissions, index, output, offset);
      index := index + 1;
    }
    PrintGrows(permissions, index, SCOPE_COUNT);
  }

  method ScopeFormat(permissions: Mask, output: array<char>) returns (r: Result<()>)
    modifies output
    ensures r == Err(EINVAL) <==> output.Length == 0 || permissions == {} || !(permissions <= PERMISSION_ALL)
    ensures r == Err(EINVAL) ==> output[..] == old(output[..])
    ensures r.Ok? ==> Holds(output[..], Print(permissions))
    ensures r.Err? ==>
              r.error == EINVAL || (r.error == ENOSPC && |Print(permissions)| >= output.Length && output[0] == '\0')
  {
    if output.Length == 0 || permissions == {} || !(permissions <= PERMISSION_ALL) {
      return Err(EINVAL);
    }
    var ok := FormatAll(permissions, output);
    if !ok {
      output[0] := '\0';
      return Err(ENOSPC);
    }
    return Ok(());
  }

  /** The text in a buffer, up to its terminating zero. */
  method TextIn(buffer: array<char>) returns (text: string)
    ensures text <= buffer[..] && '\0' !in text
    ensures |text| < buffer.Length ==> buffer[|text|] == '\0'
  {
    var size := 0;
    while size < buffer.Length && buffer[size] != '\0'
      invariant size <= buffer.Length && '\0' !in buffer[..size]
    {
      size := size + 1;
    }
    text := buffer[..size];
  }

  lemma {:induction false} JoinHasNoZero(names: seq<string>)
    requires forall k :: 0 <= k < |names| ==> '\0' !in names[k]
    ensures '\0' !in Join(names)
  {
    if |names| > 1 {
      JoinHasNoZero(names[1..]);
      assert '\0' !in names[0];
    }
  }

  lemma NameHasNoZero(i: nat)
    requires i < SCOPE_COUNT
    ensures '\0' !in ScopeName(i)
  {
    match i
    case 0 => case 1 => case 2 => case 3 =>
    case 4 => case 5 => case 6 => case 7 =>
    case _ =>
  }

  /** A printed mask fits the buffer for scope text and holds no zero. */
  lemma PrintedText(mask: Mask)
    ensures |Print(mask)| <= SCOPE_TEXT_MAX && '\0' !in Print(mask)
  {
    var ids := CanonTo(mask, SCOPE_COUNT);
    ListFits(ids);
    forall k | 0 <= k < |ids| ensures '\0' !in Names(ids)[k] { NameHasNoZero(ids[k]); }
    JoinHasNoZero(Names(ids));
  }

  // ---- The two directions together ----

  /** Distinct indices cannot outnumber the vocabulary. */
  lemma {:induction false} DistinctSize(ids: seq<nat>, n: nat)
    requires n <= SCOPE_COUNT && Distinct(ids) && forall k :: 0 <= k < |ids| ==> ids[k] < n
    ensures |ids| <= n
    decreases n
  {
    if ids != [] {
      assert ids[0] < n;
      if n - 1 !in ids {
        DistinctSize(ids, n - 1);
      } else {
        var k :| 0 <= k < |ids| && ids[k] == n - 1;
        DistinctSize(ids[..k] + ids[k + 1..], n - 1);
      }
    }
  }

  lemma {:induction false} JoinSize(names: seq<string>)
    requires forall k :: 0 <= k < |names| ==> |names[k]| <= 14
    ensures |Join(names)| <= 15 * |names|
  {
    if names != [] { JoinSize(names[1..]); }
  }

  /** The 192-byte limit and the 193-byte buffer never cause a rejection. */
  lemma ListFits(ids: seq<nat>)
    requires Distinct(ids)
    ensures |Join(Names(ids))| <= SCOPE_TEXT_MAX
  {
    forall k | 0 <= k < |ids| ensures |Names(ids)[k]| <= 14 { NameShape(ids[k]); }
    JoinSize(Names(ids));
    DistinctSize(ids, SCOPE_COUNT);
  }

  /** Parsing accepts exactly the comma-joined lists of distinct known names,
      in any order, and returns the set of those names. */
  lemma ParseExactly(text: string)
    ensures Parse(text).Ok? <==> exists ids :: ids != [] && Distinct(ids) && text == Join(Names(ids))
    ensures forall ids :: ids != [] && Distinct(ids) && text == Join(Names(ids)) ==> Parse(text) == Ok(MaskOf(ids))
    ensures Parse(text).Err? ==> Parse(text).error == EINVAL
  {
    forall ids | ids != [] && Distinct(ids) && text == Join(Names(ids))
      ensures Parse(text) == Ok(MaskOf(ids))
    {
      ListFits(ids);
      ParseComplete(ids, {});
      assert {} + MaskOf(ids) == MaskOf(ids);
    }
    if Parse(text).Ok? {
      var ids := ParseSound(text, {});
    } else if text != [] && |text| <= SCOPE_TEXT_MAX {
      ParseFails(text, {});
    }
  }

  lemma {:induction false} ParseFails(text: string, parsed: Mask)
    requires text != [] && ParseItems(text, parsed).Err?
    ensures ParseItems(text, parsed).error == EINVAL
    decreases |text|
  {
    var item := Item(text, parsed);
    if item.Ok? { ParseFails(text[item.value.1..], item.value.0); }
  }

  /** Parsing the canonical text of a mask gives the mask back. */
  lemma RoundTrip(mask: Mask)
    requires mask != {} && mask <= PERMISSION_ALL
    ensures Parse(Print(mask)) == Ok(mask)
  {
    var ids := CanonTo(mask, SCOPE_COUNT);
    assert MaskOf(ids) == mask;
    ParseExactly(Print(mask));
  }

  /** Formatting a parsed list reorders it: the same names, in vocabulary order. */
  lemma CanonicalReordering(ids: seq<nat>)
    requires ids != [] && Distinct(ids)
    ensures Parse(Join(Names(ids))) == Ok(MaskOf(ids))
    ensures var canonical := CanonTo(MaskOf(ids), SCOPE_COUNT);
            && multiset(canonical) == multiset(ids)
            && (forall j, k :: 0 <= j < k < |canonical| ==> canonical[j] < canonical[k])
            && Print(MaskOf(ids)) == Join(Names(canonical))
  {
    ParseExactly(Join(Names(ids)));
    var canonical := CanonTo(MaskOf(ids), SCOPE_COUNT);
    forall i ensures multiset(canonical)[i] == multiset(ids)[i] {
      CountOnce(canonical, i);
      CountOnce(ids, i);
      assert i in canonical <==> i in ids;
    }
  }

  lemma {:induction false} CountOnce(ids: seq<nat>, i: nat)
    requires forall j, k :: 0 <= j < k < |ids| ==> ids[j] != ids[k]
    ensures multiset(ids)[i] == if i in ids then 1 else 0
  {
    if ids != [] {
      var rest := ids[1..];
      CountOnce(rest, i);
      assert ids == [ids[0]] + rest;
      assert ids[0] !in rest;
    }
  }
}
