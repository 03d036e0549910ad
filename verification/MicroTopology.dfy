/**
 The micro topology of a pod as an annotation: resources per NUMA node, written in whatever
 order the maps are walked, and read back. The round trip holds exactly for the topologies
 whose resource lists all exist and are not empty; every other one is refused on reading.
*/
module Texts {

  import opened BinderTypes

  function Split(s: string, sep: char): (parts: seq<string>)
    ensures |parts| > 0
  {
    if s == "" then [""]
    else
      var rest := Split(s[1..], sep);
      if s[0] == sep then [""] + rest else [[s[0]] + rest[0]] + rest[1..]
  }

  lemma {:induction false} SplitFirst(a: string, sep: char, b: string)
    requires sep !in a
    ensures Split(a + [sep] + b, sep) == [a] + Split(b, sep)
  {
    if a == "" {
      assert (a + [sep] + b)[1..] == b;
    } else {
      SplitFirst(a[1..], sep, b);
      assert (a + [sep] + b)[1..] == a[1..] + [sep] + b;
      assert ([a[1..]] + Split(b, sep))[1..] == Split(b, sep);
      assert [a[0]] + a[1..] == a;
    }
  }

  lemma {:induction false} SplitWhole(a: string, sep: char)
    requires sep !in a
    ensures Split(a, sep) == [a]
  {
    if a != "" {
      SplitWhole(a[1..], sep);
      assert [a[0]] + a[1..] == a;
    }
  }

  /** The parts, each followed by the separator. */
  ghost function Terminated(parts: seq<string>, sep: char): string {
    if parts == [] then "" else Terminated(parts[..|parts| - 1], sep) + parts[|parts| - 1] + [sep]
  }

  /** The parts with separators in between only. */
  ghost function Join(parts: seq<string>, sep: char): string {
    if parts == [] then "" else Terminated(parts[..|parts| - 1], sep) + parts[|parts| - 1]
  }

  lemma {:induction false} SplitTerminated(parts: seq<string>, sep: char, rest: string)
    requires forall i :: 0 <= i < |parts| ==> sep !in parts[i]
    ensures Split(Terminated(parts, sep) + rest, sep) == parts + Split(rest, sep)
  {
    if parts == [] {
      assert Terminated(parts, sep) + rest == rest;
    } else {
      hide Split;
      var front, last := parts[..|parts| - 1], parts[|parts| - 1];
      assert Terminated(parts, sep) + rest == Terminated(front, sep) + (last + [sep] + rest);
      SplitTerminated(front, sep, last + [sep] + rest);
      SplitFirst(last, sep, rest);
      assert front + ([last] + Split(rest, sep)) == parts + Split(rest, sep);
    }
  }

  /** Splitting undoes joining. */
  lemma SplitJoin(parts: seq<string>, sep: char)
    requires parts != [] && forall i :: 0 <= i < |parts| ==> sep !in parts[i]
    ensures Split(Join(parts, sep), sep) == parts
  {
    var front, last := parts[..|parts| - 1], parts[|parts| - 1];
    SplitTerminated(front, sep, last);
    SplitWhole(last, sep);
    assert front + [last] == parts;
  }

  lemma {:induction false} SplitCounts(s: string, sep: char)
    ensures |Split(s, sep)| == 1 + multiset(s)[sep]
  {
    if s != "" {
      SplitCounts(s[1..], sep);
      assert s == [s[0]] + s[1..];
    }
  }

  lemma TrimOne(s: string, c: char)
    requires s != "" && s[|s| - 1] != c
    ensures TrimRight(s + [c], c) == s && TrimRight(s, c) == s
  {
    assert (s + [c])[..|s|] == s;
  }

  function TrimRight(s: string, c: char): string {
    if s != "" && s[|s| - 1] == c then TrimRight(s[..|s| - 1], c) else s
  }

  // ---- decimal numbers

  const LIMIT := 0x8000_0000_0000_0000

  function Digit(d: nat): char
    requires d < 10
  {
    "0123456789"[d]
  }

  predicate IsDigit(c: char) {
    '0' <= c <= '9'
  }

  function ValueOf(c: char): nat
    requires IsDigit(c)
  {
    (c as int) - ('0' as int)
  }

  function Digits(n: nat): (s: string)
    ensures s != "" && forall c :: c in s ==> IsDigit(c)
  {
    if n < 10 then [Digit(n)] else Digits(n / 10) + [Digit(n % 10)]
  }

  function Number(s: string): nat
    requires forall c :: c in s ==> IsDigit(c)
  {
    if s == "" then 0 else Number(s[..|s| - 1]) * 10 + ValueOf(s[|s| - 1])
  }

  function FormatInt(n: int): string {
    if n < 0 then "-" + Digits(-n) else Digits(n)
  }

  /** A sign, digits, and a value that fits 64 bits. */
  function ParseInt(s: string): Option<int> {
    if s == "" then None else
      var digits := if s[0] == '-' || s[0] == '+' then s[1..] else s;
      if digits == "" || !(forall c :: c in digits ==> IsDigit(c)) then None else
        var value: int := Number(digits);
        var n := if s[0] == '-' then -value else value;
        if -LIMIT <= n < LIMIT then Some(n) else None
  }

  lemma {:induction false} DigitsRoundTrip(n: nat)
    ensures Number(Digits(n)) == n
  {
    if n >= 10 {
      DigitsRoundTrip(n / 10);
      var s := Digits(n);
      assert s[..|s| - 1] == Digits(n / 10);
    }
  }

  lemma ReadsNegative(digits: string)
    requires digits != "" && forall c :: c in digits ==> IsDigit(c)
    ensures
      var n: int := Number(digits);
      ParseInt("-" + digits) == if n <= LIMIT then Some(-n) else None
  {
    hide Number;
    assert ("-" + digits)[1..] == digits;
  }

  lemma ReadsPositive(digits: string)
    requires digits != "" && forall c :: c in digits ==> IsDigit(c)
    ensures
      var n: int := Number(digits);
      ParseInt(digits) == if n < LIMIT then Some(n) else None
  {
    hide Number;
    assert digits[0] in digits && IsDigit(digits[0]);
  }

  lemma IntRoundTrip(n: int)
    requires -LIMIT <= n < LIMIT
    ensures ParseInt(FormatInt(n)) == Some(n)
  {
    hide Digits, Number, ParseInt;
    DigitsRoundTrip(if n < 0 then -n else n);
    if n < 0 {
      ReadsNegative(Digits(-n));
    } else {
      ReadsPositive(Digits(n));
    }
  }
}

module MicroTopologies {

  import opened BinderTypes
  import opened Texts

  /** How quantities are written and read; their own format is not modelled. */
  datatype Codec<!Q> = Codec(format: Q -> string, parse: string -> Option<Q>)

  type ResourceList<Q> = map<string, Q>

  predicate IsSeparator(c: char) {
    c == ';' || c == ':' || c == ',' || c == '='
  }

  predicate Clean(s: string) {
    forall c :: c in s ==> !IsSeparator(c)
  }

  ghost predicate Faithful<Q(!new)>(codec: Codec<Q>) {
    forall q :: codec.parse(codec.format(q)) == Some(q) && Clean(codec.format(q))
  }

  // ---- reading

  function ParseResources<Q>(codec: Codec<Q>, parts: seq<string>, acc: ResourceList<Q>): Option<ResourceList<Q>> {
    if parts == [] then Some(acc) else
      var entry := Split(parts[0], '=');
      if |entry| != 2 then None else
        match codec.parse(entry[1])
        case None => None
        case Some(q) => ParseResources(codec, parts[1..], acc[entry[0] := q])
  }

  /** One NUMA node: its number and its resources, added to what was read for it before. */
  function ParsePiece<Q>(codec: Codec<Q>, piece: string, acc: map<int, ResourceList<Q>>): Option<map<int, ResourceList<Q>>> {
    var status := Split(piece, ':');
    if |status| != 2 then None else
      match ParseInt(status[0])
      case None => None
      case Some(id) =>
        var before := if id in acc then acc[id] else map[];
        match ParseResources(codec, Split(status[1], ','), before)
        case None => None
        case Some(list) => Some(acc[id := list])
  }

  function ParsePieces<Q>(codec: Codec<Q>, pieces: seq<string>, acc: map<int, ResourceList<Q>>): Option<map<int, ResourceList<Q>>> {
    if pieces == [] then Some(acc) else
      match ParsePiece(codec, pieces[0], acc)
      case None => None
      case Some(acc') => ParsePieces(codec, pieces[1..], acc')
  }

  function Unmarshal<Q>(codec: Codec<Q>, s: string): Option<map<int, ResourceList<Q>>> {
    if s == "" || s == "null" then Some(map[]) else ParsePieces(codec, Split(s, ';'), map[])
  }

  /** Reads the resources of one NUMA node entry by entry. */
  method ReadResources<Q>(codec: Codec<Q>, text: string, before: ResourceList<Q>) returns (r: Option<ResourceList<Q>>)
    ensures r == ParseResources(codec, Split(text, ','), before)
  {
    var parts, list := Split(text, ','), before;
    for i := 0 to |parts|
      invariant ParseResources(codec, parts, before) == ParseResources(codec, parts[i..], list)
    {
      var entry := Split(parts[i], '=');
      assert parts[i..][1..] == parts[i + 1..];
      if |entry| != 2 {
        return None;
      }
      var q := codec.parse(entry[1]);
      if q == None {
        return None;
      }
      list := list[entry[0] := q.value];
    }
    r := Some(list);
  }

  method UnmarshalMicroTopology<Q>(codec: Codec<Q>, s: string) returns (r: Option<map<int, ResourceList<Q>>>)
    ensures r == Unmarshal(codec, s)
  {
    if s == "" || s == "null" {
      return Some(map[]);
    }
    var pieces := Split(s, ';');
    var res: map<int, ResourceList<Q>> := map[];
    for i := 0 to |pieces|
      invariant ParsePieces(codec, pieces, map[]) == ParsePieces(codec, pieces[i..], res)
    {
      assert pieces[i..][1..] == pieces[i + 1..];
      var status := Split(pieces[i], ':');
      if |status| != 2 {
        return None;
      }
      var id := ParseInt(status[0]);
      if id == None {
        return None;
      }
      var list := ReadResources(codec, status[1], if id.value in res then res[id.value] else map[]);
      if list == None {
        return None;
      }
      res := res[id.value := list.value];
    }
    r := Some(res);
  }

  // ---- what is read from several parts

  lemma {:induction false} ParseResourcesAppend<Q>(codec: Codec<Q>, parts: seq<string>, part: string, acc: ResourceList<Q>)
    ensures ParseResources(codec, parts + [part], acc) ==
      match ParseResources(codec, parts, acc)
      case None => None
      case Some(list) => ParseResources(codec, [part], list)
  {
    if parts == [] {
      assert parts + [part] == [part];
    } else {
      assert (parts + [part])[1..] == parts[1..] + [part];
      var entry := Split(parts[0], '=');
      if |entry| == 2 && codec.parse(entry[1]).Some? {
        ParseResourcesAppend(codec, parts[1..], part, acc[entry[0] := codec.parse(entry[1]).value]);
      }
    }
  }

  lemma {:induction false} ParsePiecesAppend<Q>(
    codec: Codec<Q>, pieces: seq<string>, piece: string, acc: map<int, ResourceList<Q>>)
    ensures ParsePieces(codec, pieces + [piece], acc) ==
      match ParsePieces(codec, pieces, acc)
      case None => None
      case Some(t) => ParsePiece(codec, piece, t)
  {
    if pieces == [] {
      assert pieces + [piece] == [piece];
      assert [piece][1..] == [];
    } else {
      assert (pieces + [piece])[1..] == pieces[1..] + [piece];
      var first := ParsePiece(codec, pieces[0], acc);
      if first.Some? {
        ParsePiecesAppend(codec, pieces[1..], piece, first.value);
      }
    }
  }

  /** Too many colons, or nothing after the only one. */
  ghost predicate Broken(piece: string) {
    multiset(piece)[':'] >= 2 || (multiset(piece)[':'] == 1 && piece[|piece| - 1] == ':')
  }

  lemma BrokenIsRefused<Q>(codec: Codec<Q>, piece: string, acc: map<int, ResourceList<Q>>)
    requires Broken(piece)
    ensures ParsePiece(codec, piece, acc) == None
  {
    SplitCounts(piece, ':');
    if multiset(piece)[':'] == 1 {
      var head := piece[..|piece| - 1];
      assert piece == head + [':'] + "";
      assert multiset(piece) == multiset(head) + multiset([':']);
      SplitFirst(head, ':', "");
      assert Split("", ',') == [""];
      assert Split("", '=') == [""];
    }
  }

  lemma {:induction false} BrokenSpoils<Q>(codec: Codec<Q>, pieces: seq<string>, acc: map<int, ResourceList<Q>>)
    requires exists i :: 0 <= i < |pieces| && Broken(pieces[i])
    ensures ParsePieces(codec, pieces, acc) == None
    decreases |pieces|
  {
    if Broken(pieces[0]) {
      BrokenIsRefused(codec, pieces[0], acc);
    } else {
      var first := ParsePiece(codec, pieces[0], acc);
      var i :| 0 <= i < |pieces| && Broken(pieces[i]);
      assert Broken(pieces[1..][i - 1]);
      if first.Some? {
        BrokenSpoils(codec, pieces[1..], first.value);
      }
    }
  }

  // ---- writing

  /** The text of a resource list: something that is read back as the list, or nothing for an empty one. */
  ghost predicate IsBody<Q>(codec: Codec<Q>, list: ResourceList<Q>, body: string) {
    && ';' !in body && ':' !in body
    && (if list.Keys == {} then body == ""
        else body != "" && ParseResources(codec, Split(body, ','), map[]) == Some(list))
  }

  lemma EntryIsRead<Q(!new)>(codec: Codec<Q>, name: string, q: Q, list: ResourceList<Q>)
    requires Faithful(codec) && Clean(name)
    ensures
      var entry := name + "=" + codec.format(q);
      && ',' !in entry && ':' !in entry && ';' !in entry && entry != ""
      && ParseResources(codec, [entry], list) == Some(list[name := q])
  {
    var text := codec.format(q);
    assert codec.parse(text) == Some(q) && Clean(text);
    assert '=' !in name && '=' !in text;
    assert name + "=" + text == name + ['='] + text;
    SplitFirst(name, '=', text);
    SplitWhole(text, '=');
    assert [name + "=" + text][1..] == [];
  }

  ghost predicate EntriesOk(entries: seq<string>) {
    forall i :: 0 <= i < |entries| ==>
      ',' !in entries[i] && ':' !in entries[i] && ';' !in entries[i] && entries[i] != ""
  }

  lemma {:induction false} TerminatedAvoids(parts: seq<string>, sep: char, c: char)
    requires c != sep && forall i :: 0 <= i < |parts| ==> c !in parts[i]
    ensures c !in Terminated(parts, sep) && c !in Join(parts, sep)
  {
    if parts != [] {
      TerminatedAvoids(parts[..|parts| - 1], sep, c);
    }
  }

  lemma BodyIsRead<Q>(codec: Codec<Q>, list: ResourceList<Q>, entries: seq<string>, start: string)
    requires EntriesOk(entries) && (entries == [] <==> list.Keys == {})
    requires ParseResources(codec, entries, map[]) == Some(list)
    requires start != "" && start[|start| - 1] != ','
    ensures IsBody(codec, list, Join(entries, ','))
    ensures TrimRight(start + Terminated(entries, ','), ',') == start + Join(entries, ',')
  {
    var body := Join(entries, ',');
    TerminatedAvoids(entries, ',', ';');
    TerminatedAvoids(entries, ',', ':');
    if entries == [] {
      assert start + "" == start;
      TrimOne(start, ',');
    } else {
      SplitJoin(entries, ',');
      var last := entries[|entries| - 1];
      assert body[|body| - 1] == last[|last| - 1];
      assert last[|last| - 1] in last;
      assert start + Terminated(entries, ',') == start + body + [','];
      TrimOne(start + body, ',');
    }
  }

  /** The entries written so far are read back as the part of the list that is done. */
  ghost predicate Written<Q>(codec: Codec<Q>, list: ResourceList<Q>, todo: set<string>, entries: seq<string>) {
    && todo <= list.Keys && (entries == [] <==> todo == list.Keys)
    && EntriesOk(entries)
    && ParseResources(codec, entries, map[]) == Some(map name | name in list.Keys - todo :: list[name])
  }

  lemma WrittenStarts<Q>(codec: Codec<Q>, list: ResourceList<Q>)
    ensures Written(codec, list, list.Keys, [])
  {
    assert list.Keys - list.Keys == {};
  }

  lemma WrittenStep<Q(!new)>(codec: Codec<Q>, list: ResourceList<Q>, todo: set<string>, entries: seq<string>, name: string)
    requires Faithful(codec) && Clean(name) && name in todo && Written(codec, list, todo, entries)
    ensures
      var entry := name + "=" + codec.format(list[name]);
      && Written(codec, list, todo - {name}, entries + [entry])
      && Terminated(entries + [entry], ',') == Terminated(entries, ',') + name + "=" + codec.format(list[name]) + ","
  {
    hide Faithful, Clean, ParseResources, Split;
    var entry := name + "=" + codec.format(list[name]);
    var done := map n | n in list.Keys - todo :: list[n];
    EntryIsRead(codec, name, list[name], done);
    ParseResourcesAppend(codec, entries, entry, map[]);
    assert (entries + [entry])[..|entries|] == entries;
    assert Terminated(entries + [entry], ',') == Terminated(entries, ',') + entry + [','];
    assert (map n | n in list.Keys - (todo - {name}) :: list[n]) == done[name := list[name]];
  }

  lemma WrittenEnds<Q>(codec: Codec<Q>, list: ResourceList<Q>, entries: seq<string>)
    requires Written(codec, list, {}, entries)
    ensures EntriesOk(entries) && (entries == [] <==> list.Keys == {})
    ensures ParseResources(codec, entries, map[]) == Some(list)
  {
    assert (map name | name in list.Keys - {} :: list[name]) == list;
  }

  /** Appends the resources of one NUMA node, in any order, and takes the last comma away again. */
  method WriteResources<Q(!new)>(codec: Codec<Q>, start: string, list: ResourceList<Q>)
    returns (text: string, ghost body: string)
    requires Faithful(codec) && (forall name :: name in list ==> Clean(name))
    requires start != "" && start[|start| - 1] != ','
    ensures text == start + body && IsBody(codec, list, body)
  {
    hide IsBody, Faithful, Clean, Written, ParseResources, Terminated, Join, EntriesOk, TrimRight, Split;
    text := "";
    var todo := list.Keys;
    ghost var entries: seq<string> := [];
    WrittenStarts(codec, list);
    NothingTerminated(',');
    while todo != {}
      invariant todo <= list.Keys && Written(codec, list, todo, entries)
      invariant text == Terminated(entries, ',')
    {
      var name :| name in todo;
      WrittenStep(codec, list, todo, entries, name);
      entries := entries + [name + "=" + codec.format(list[name])];
      text := text + name + "=" + codec.format(list[name]) + ",";
      todo := todo - {name};
    }
    WrittenEnds(codec, list, entries);
    BodyIsRead(codec, list, entries, start);
    text := TrimRight(start + text, ',');
    body := Join(entries, ',');
  }

  lemma NothingTerminated(sep: char)
    ensures Terminated([], sep) == ""
  {
  }

  /** A topology to be written; a list may be missing. */
  type Topology<Q> = map<int, Option<ResourceList<Q>>>

  ghost predicate Full<Q>(list: Option<ResourceList<Q>>) {
    list.Some? && list.value.Keys != {}
  }

  ghost predicate AllFull<Q>(t: Topology<Q>, ids: set<int>) {
    forall id :: id in ids && id in t ==> Full(t[id])
  }

  ghost function Values<Q>(t: Topology<Q>, ids: set<int>): map<int, ResourceList<Q>> {
    map id | id in ids && id in t && t[id].Some? :: t[id].value
  }

  /** What can be written at all: 64-bit numbers and names without separators. */
  ghost predicate Writable<Q>(t: Topology<Q>) {
    && (forall id :: id in t ==> -LIMIT <= id < LIMIT)
    && (forall id, name :: id in t && t[id].Some? && name in t[id].value ==> Clean(name))
  }

  lemma NumberIsClean(n: int)
    ensures Clean(FormatInt(n)) && FormatInt(n) != ""
  {
    assert forall c :: IsDigit(c) ==> !IsSeparator(c);
  }

  lemma PieceIsRead<Q>(codec: Codec<Q>, id: int, list: ResourceList<Q>, body: string, acc: map<int, ResourceList<Q>>)
    requires -LIMIT <= id < LIMIT && id !in acc && list.Keys != {} && IsBody(codec, list, body)
    ensures ParsePiece(codec, FormatInt(id) + ":" + body, acc) == Some(acc[id := list])
  {
    NumberIsClean(id);
    IntRoundTrip(id);
    var head := FormatInt(id);
    assert ':' !in head by { assert IsSeparator(':'); }
    assert head + ":" + body == head + [':'] + body;
    SplitFirst(head, ':', body);
    SplitWhole(body, ':');
  }

  lemma ColonsAdd(open: string, id: int, body: string)
    requires ':' !in body
    ensures multiset(open + FormatInt(id) + ":" + body)[':'] == multiset(open)[':'] + 1
  {
    NumberIsClean(id);
    assert ':' !in FormatInt(id) by { assert IsSeparator(':'); }
    assert ':' !in multiset(FormatInt(id)) && ':' !in multiset(body);
    assert multiset(open + FormatInt(id) + ":" + body)
        == multiset(open) + multiset(FormatInt(id)) + multiset(":") + multiset(body);
  }

  /** Adding to an unfinished piece, or leaving a piece without resources, breaks it. */
  lemma Breaks(open: string, id: int, body: string)
    requires ':' !in body && ';' !in body && ';' !in open && (open != "" ==> Broken(open))
    requires open != "" || body == ""
    ensures
      var piece := open + FormatInt(id) + ":" + body;
      Broken(piece) && ';' !in piece && piece != ""
  {
    ColonsAdd(open, id, body);
    NumberIsClean(id);
    assert ';' !in FormatInt(id) by { assert IsSeparator(';'); }
  }

  ghost predicate PiecesOk(pieces: seq<string>) {
    forall i :: 0 <= i < |pieces| ==> ';' !in pieces[i] && pieces[i] != "" && multiset(pieces[i])[':'] > 0
  }

  /** The text so far is the finished pieces and an unfinished one; it is readable unless a list was missing or empty. */
  ghost predicate Marshalled<Q>(codec: Codec<Q>, t: Topology<Q>, todo: set<int>, pieces: seq<string>, open: string) {
    && todo <= t.Keys && (pieces == [] && open == "" <==> todo == t.Keys)
    && PiecesOk(pieces) && ';' !in open && (open != "" ==> Broken(open))
    && (if AllFull(t, t.Keys - todo)
        then open == "" && ParsePieces(codec, pieces, map[]) == Some(Values(t, t.Keys - todo))
        else open != "" || exists i :: 0 <= i < |pieces| && Broken(pieces[i]))
  }

  lemma MarshalStarts<Q>(codec: Codec<Q>, t: Topology<Q>)
    ensures Marshalled(codec, t, t.Keys, [], "")
  {
    assert t.Keys - t.Keys == {};
    assert Values(t, {}) == map[];
  }

  lemma FullGrows<Q>(t: Topology<Q>, todo: set<int>, id: int)
    requires id in todo && todo <= t.Keys
    ensures AllFull(t, t.Keys - (todo - {id})) <==> AllFull(t, t.Keys - todo) && Full(t[id])
    ensures Full(t[id]) ==> Values(t, t.Keys - (todo - {id})) == Values(t, t.Keys - todo)[id := t[id].value]
  {
    assert t.Keys - (todo - {id}) == (t.Keys - todo) + {id};
  }

  lemma SkipsMissing<Q>(codec: Codec<Q>, t: Topology<Q>, todo: set<int>, pieces: seq<string>, open: string, id: int)
    requires Marshalled(codec, t, todo, pieces, open) && id in todo && t[id] == None
    ensures Marshalled(codec, t, todo - {id}, pieces, open + FormatInt(id) + ":")
  {
    FullGrows(t, todo, id);
    var open' := open + FormatInt(id) + ":";
    assert open' + "" == open';
    if open != "" {
      Breaks(open, id, "");
    } else {
      Breaks("", id, "");
      assert open' == "" + FormatInt(id) + ":" + "";
    }
  }

  lemma NewPieceOk(pieces: seq<string>, open: string, id: int, body: string)
    requires PiecesOk(pieces) && ':' !in body && ';' !in body && ';' !in open
    ensures PiecesOk(pieces + [open + FormatInt(id) + ":" + body])
  {
    ColonsAdd(open, id, body);
    NumberIsClean(id);
    assert ';' !in FormatInt(id) by { assert IsSeparator(';'); }
    var piece := open + FormatInt(id) + ":" + body;
    assert ';' !in piece && piece != "";
  }

  lemma NewPieceIsRead<Q>(
    codec: Codec<Q>, t: Topology<Q>, todo: set<int>, pieces: seq<string>, id: int, body: string)
    requires Writable(t) && id in todo && todo <= t.Keys && Full(t[id]) && IsBody(codec, t[id].value, body)
    requires ParsePieces(codec, pieces, map[]) == Some(Values(t, t.Keys - todo))
    ensures ParsePieces(codec, pieces + ["" + FormatInt(id) + ":" + body], map[]) == Some(Values(t, t.Keys - (todo - {id})))
  {
    hide ParsePieces, ParsePiece, ParseResources, IsBody;
    FullGrows(t, todo, id);
    var piece := FormatInt(id) + ":" + body;
    assert "" + FormatInt(id) + ":" + body == piece;
    PieceIsRead(codec, id, t[id].value, body, Values(t, t.Keys - todo));
    ParsePiecesAppend(codec, pieces, piece, map[]);
  }

  lemma StaysBroken(pieces: seq<string>, piece: string)
    requires Broken(piece) || exists i :: 0 <= i < |pieces| && Broken(pieces[i])
    ensures exists i :: 0 <= i < |pieces + [piece]| && Broken((pieces + [piece])[i])
  {
    var pieces' := pieces + [piece];
    assert pieces'[|pieces|] == piece;
    assert forall i :: 0 <= i < |pieces| ==> pieces'[i] == pieces[i];
  }

  lemma AddsPiece<Q>(
    codec: Codec<Q>, t: Topology<Q>, todo: set<int>, pieces: seq<string>, open: string, id: int, body: string)
    requires Marshalled(codec, t, todo, pieces, open) && Writable(t) && id in todo && t[id].Some?
    requires IsBody(codec, t[id].value, body)
    ensures Marshalled(codec, t, todo - {id}, pieces + [open + FormatInt(id) + ":" + body], "")
  {
    hide ParsePieces, ParsePiece, ParseResources, AllFull, Values, PiecesOk, Writable, Broken, FormatInt;
    var piece := open + FormatInt(id) + ":" + body;
    FullGrows(t, todo, id);
    NewPieceOk(pieces, open, id, body);
    if open != "" || body == "" {
      Breaks(open, id, body);
      StaysBroken(pieces, piece);
    } else if AllFull(t, t.Keys - todo) {
      NewPieceIsRead(codec, t, todo, pieces, id, body);
    } else {
      StaysBroken(pieces, piece);
    }
  }

  /** With an unfinished piece at the end, nothing is trimmed. */
  lemma OpenText(pieces: seq<string>, open: string)
    requires PiecesOk(pieces) && ';' !in open && Broken(open)
    ensures
      var text := TrimRight(Terminated(pieces, ';') + open, ';');
      text != "" && text != "null" && Split(text, ';') == pieces + [open]
  {
    var text := Terminated(pieces, ';') + open;
    assert text[|text| - 1] == open[|open| - 1] && open[|open| - 1] in open;
    TrimOne(text, ';');
    OpenIsLast(pieces, open);
    HasColon(text, open);
  }

  /** Otherwise the last separator is trimmed and no other. */
  lemma ClosedText(pieces: seq<string>)
    requires PiecesOk(pieces) && pieces != []
    ensures
      var text := TrimRight(Terminated(pieces, ';') + "", ';');
      text != "" && text != "null" && Split(text, ';') == pieces
  {
    var text, last := Join(pieces, ';'), pieces[|pieces| - 1];
    assert Terminated(pieces, ';') + "" == text + [';'];
    assert text[|text| - 1] == last[|last| - 1] && last[|last| - 1] in last;
    TrimOne(text, ';');
    SplitJoin(pieces, ';');
    HasColon(text, last);
  }

  lemma MarshalEnds<Q>(codec: Codec<Q>, t: Topology<Q>, pieces: seq<string>, open: string)
    requires Marshalled(codec, t, {}, pieces, open)
    ensures
      Unmarshal(codec, TrimRight(Terminated(pieces, ';') + open, ';'))
      == if AllFull(t, t.Keys) then Some(Values(t, t.Keys)) else None
  {
    hide ParsePieces, ParsePiece, AllFull, Values, TrimRight, Terminated, Split, Broken, PiecesOk;
    assert t.Keys - {} == t.Keys;
    if open != "" {
      OpenText(pieces, open);
      StaysBroken(pieces, open);
      BrokenSpoils(codec, pieces + [open], map[]);
    } else if pieces == [] {
      EmptyTopology(t);
      NothingTerminated(';');
      NothingTrimmed(';');
      assert "" + "" == "";
    } else {
      ClosedText(pieces);
      if !AllFull(t, t.Keys) {
        BrokenSpoils(codec, pieces, map[]);
      }
    }
  }

  lemma NothingTrimmed(c: char)
    ensures TrimRight("", c) == ""
  {
  }

  lemma EmptyTopology<Q>(t: Topology<Q>)
    requires t.Keys == {}
    ensures AllFull(t, t.Keys) && Values(t, t.Keys) == map[]
  {
  }

  lemma OpenIsLast(pieces: seq<string>, open: string)
    requires PiecesOk(pieces) && ';' !in open
    ensures Split(Terminated(pieces, ';') + open, ';') == pieces + [open]
  {
    SplitTerminated(pieces, ';', open);
    SplitWhole(open, ';');
  }

  /** What has a colon is neither of the texts that stand for no topology. */
  lemma HasColon(text: string, part: string)
    requires |part| <= |text| && text[|text| - |part|..] == part && multiset(part)[':'] > 0
    ensures text != "" && text != "null"
  {
    assert text == text[..|text| - |part|] + part;
    assert ':' in text;
  }

  /**
   Writes a topology in whatever order its maps are walked. Reading it back gives the topology
   if and only if every resource list exists and is not empty.
  */
  method MarshalMicroTopology<Q(!new)>(codec: Codec<Q>, t: Topology<Q>) returns (text: string)
    requires Faithful(codec) && Writable(t)
    ensures Unmarshal(codec, text) == if AllFull(t, t.Keys) then Some(Values(t, t.Keys)) else None
  {
    hide Marshalled, Unmarshal, Faithful, Values, AllFull, Terminated, FormatInt, Clean, IsBody, TrimRight;
    text := "";
    var todo: set<int> := t.Keys;
    ghost var pieces: seq<string>, open := [], "";
    MarshalStarts(codec, t);
    NothingTerminated(';');
    while todo != {}
      invariant todo <= t.Keys && Marshalled(codec, t, todo, pieces, open)
      invariant text == Terminated(pieces, ';') + open
    {
      SomeMember(todo);
      var id :| id in todo;
      var start := text + FormatInt(id) + ":";
      if t[id] == None {
        SkipsMissing(codec, t, todo, pieces, open, id);
        text, open := start, open + FormatInt(id) + ":";
      } else {
        ghost var body;
        text, body := WriteResources(codec, start, t[id].value);
        AddsPiece(codec, t, todo, pieces, open, id, body);
        OneMoreTerminated(pieces, open + FormatInt(id) + ":" + body, ';');
        text := text + ";";
        pieces, open := pieces + [open + FormatInt(id) + ":" + body], "";
      }
      todo := todo - {id};
    }
    MarshalEnds(codec, t, pieces, open);
    text := TrimRight(text, ';');
  }

  lemma SomeMember(s: set<int>)
    requires s != {}
    ensures exists id :: id in s
  {
    assert (forall id :: id !in s) ==> s <= {};
  }

  lemma OneMoreTerminated(parts: seq<string>, part: string, sep: char)
    ensures Terminated(parts + [part], sep) == Terminated(parts, sep) + part + [sep]
  {
    assert (parts + [part])[..|parts|] == parts;
  }

  /** Reading back what was written, for every topology whose lists all hold something. */
  method RoundTrip<Q(!new)>(codec: Codec<Q>, t: Topology<Q>) returns (back: Option<map<int, ResourceList<Q>>>)
    requires Faithful(codec) && Writable(t)
    ensures AllFull(t, t.Keys) <==> back.Some?
    ensures back.Some? ==> back.value.Keys == t.Keys && forall id :: id in t ==> t[id] == Some(back.value[id])
  {
    hide Faithful, Writable, Unmarshal;
    var text := MarshalMicroTopology(codec, t);
    back := UnmarshalMicroTopology(codec, text);
    if back.Some? {
      assert forall id :: id in t ==> Full(t[id]);
    }
  }
}
