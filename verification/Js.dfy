/** The JavaScript values and string helpers the modelled files are written in terms of. */
module Js {

  datatype Option<+T> = None | Some(value: T)

  /**
    * A JavaScript value as `JSON.parse` returns it, plus `undefined` (an absent member).
    * Numbers are reals: no property here depends on how a double rounds.
    */
  datatype Json =
    | Undefined
    | Null
    | Bool(b: bool)
    | Num(n: real)
    | Str(s: string)
    | Arr(items: seq<Json>)
    | Obj(fields: map<string, Json>)

  /** `v?.name`: reading a member of anything but an object yields `undefined`. */
  function Get(v: Json, name: string): Json {
    if v.Obj? && name in v.fields then v.fields[name] else Undefined
  }

  /** `v?.type === kind` */
  predicate Is(v: Json, kind: string) {
    Get(v, "type") == Str(kind)
  }

  predicate Nullish(v: Json) {
    v.Undefined? || v.Null?
  }

  /** `a ?? b` */
  function OrElse(a: Json, b: Json): Json {
    if Nullish(a) then b else a
  }

  /** The first of the values that is there at all, else the last. */
  function FirstPresent(vs: seq<Json>): Json
    requires vs != []
  {
    if |vs| == 1 || !Nullish(vs[0]) then vs[0] else FirstPresent(vs[1..])
  }

  /** `Boolean(v)` */
  predicate Truthy(v: Json) {
    match v
    case Undefined => false
    case Null => false
    case Bool(b) => b
    case Num(n) => n != 0.0
    case Str(s) => s != ""
    case Arr(_) => true
    case Obj(_) => true
  }

  /** `a || b` */
  function OrTruthy(a: Json, b: Json): Json {
    if Truthy(a) then a else b
  }

  /** The first of the values that is truthy, else the last. */
  function FirstTruthy(vs: seq<Json>): Json
    requires vs != []
  {
    if |vs| == 1 || Truthy(vs[0]) then vs[0] else FirstTruthy(vs[1..])
  }

  lemma {:induction false} FirstOfTwo(a: Json, b: Json)
    ensures FirstPresent([a, b]) == OrElse(a, b) && FirstTruthy([a, b]) == OrTruthy(a, b)
  {
    assert [a, b][1..] == [b];
  }

  lemma {:induction false} FirstOfThree(a: Json, b: Json, c: Json)
    ensures FirstPresent([a, b, c]) == OrElse(a, OrElse(b, c)) && FirstTruthy([a, b, c]) == OrTruthy(a, OrTruthy(b, c))
  {
    assert [a, b, c][1..] == [b, c];
    FirstOfTwo(b, c);
  }

  /** `typeof v === 'string' ? v : ''` */
  function StringOrEmpty(v: Json): string {
    if v.Str? then v.s else ""
  }

  /** `Array.isArray(v) ? v : []` */
  function ItemsOf(v: Json): seq<Json> {
    if v.Arr? then v.items else []
  }

  /** The calls a chat message makes: only an assistant's are read. */
  function AssistantCalls(message: Json): seq<Json> {
    if Get(message, "role") == Str("assistant") then ItemsOf(Get(message, "tool_calls")) else []
  }

  /** An object is a Map key by identity, and no two events share one: it is never found again. */
  function SetKey(m: map<Json, nat>, key: Json, index: nat): map<Json, nat> {
    if key.Arr? || key.Obj? then m else m[key := index]
  }

  /** The built-in conversions, left abstract: `JSON.parse`, `String(v)` and `Number(v)`. */
  datatype Builtins = Builtins(parse: string -> Option<Json>, text: Json -> string, number: Json -> real)

  predicate IsSpace(c: char) {
    c == ' ' || c == '\t' || c == '\n' || c == '\r' || c == '\U{0B}' || c == '\U{0C}' || c == '\U{A0}' ||
    c == '\U{1680}' || '\U{2000}' <= c <= '\U{200A}' || c == '\U{2028}' || c == '\U{2029}' ||
    c == '\U{202F}' || c == '\U{205F}' || c == '\U{3000}' || c == '\U{FEFF}'
  }

  function TrimStart(s: string): string {
    if s != "" && IsSpace(s[0]) then TrimStart(s[1..]) else s
  }

  function TrimEnd(s: string): string {
    if s != "" && IsSpace(s[|s| - 1]) then TrimEnd(s[..|s| - 1]) else s
  }

  function Trim(s: string): string {
    TrimEnd(TrimStart(s))
  }

  /** A line without the carriage return of a CRLF ending. */
  function StripCr(line: string): string {
    if line != "" && line[|line| - 1] == '\r' then line[..|line| - 1] else line
  }

  function LowerChar(c: char): char {
    if 'A' <= c <= 'Z' then (c as int + 32) as char else c
  }

  /** `toLowerCase()`, and Python's `lower()`, on ASCII letters. */
  function Lower(s: string): (l: string)
    ensures |l| == |s|
  {
    if s == "" then "" else [LowerChar(s[0])] + Lower(s[1..])
  }

  lemma {:induction false} LowerTwice(s: string)
    ensures Lower(Lower(s)) == Lower(s)
  {
    if s != "" {
      LowerTwice(s[1..]);
      assert Lower(s)[1..] == Lower(s[1..]);
    }
  }

  /** `parts.join(separator)` */
  function Join(parts: seq<string>, separator: string): string {
    if |parts| == 0 then ""
    else if |parts| == 1 then parts[0]
    else parts[0] + separator + Join(parts[1..], separator)
  }

  /** The concatenation of the parts: `parts.join('')`, `Buffer.concat(parts)`. */
  function Concat<T>(parts: seq<seq<T>>): seq<T> {
    if parts == [] then [] else parts[0] + Concat(parts[1..])
  }

  lemma {:induction false} TailAppend<T>(a: seq<T>, b: seq<T>)
    requires a != []
    ensures (a + b)[0] == a[0] && (a + b)[1..] == a[1..] + b
  {
  }

  lemma {:induction false} Snoc<T>(front: seq<T>, last: T, all: seq<T>)
    requires all == front + [last]
    ensures all != [] && all[..|all| - 1] == front && all[|all| - 1] == last
  {
  }

  lemma {:induction false} PrefixSnoc<T>(s: seq<T>, k: nat)
    requires k < |s|
    ensures s[..k + 1] == s[..k] + [s[k]]
  {
  }

  lemma {:induction false} TailUpdate<T>(s: seq<T>, i: nat, v: T)
    requires 0 < i < |s|
    ensures s[1..][i - 1] == s[i] && s[i := v][0] == s[0] && s[i := v][1..] == s[1..][i - 1 := v]
  {
  }

  lemma {:induction false} ConcatAppend<T>(a: seq<seq<T>>, b: seq<seq<T>>)
    ensures Concat(a + b) == Concat(a) + Concat(b)
  {
    if a == [] {
      assert a + b == b;
    } else {
      TailAppend(a, b);
      ConcatAppend(a[1..], b);
    }
  }

  /** Kept apart from the proofs that need it: extensionality is costly in a crowded context. */
  lemma {:induction false} Assoc<T>(a: seq<T>, b: seq<T>, c: seq<T>)
    ensures (a + b) + c == a + (b + c)
  {
  }

  lemma {:induction false} SliceWithin(a: string, b: string, i: nat)
    requires i < |a|
    ensures (a + b)[..i] == a[..i] && (a + b)[i + 1..] == a[i + 1..] + b
  {
  }

  lemma {:induction false} SliceBeyond(a: string, b: string, j: nat)
    requires j < |b|
    ensures (a + b)[..|a| + j] == a + b[..j] && (a + b)[|a| + j + 1..] == b[j + 1..]
  {
  }

  lemma {:induction false} ConcatNothing<T>(s: seq<T>)
    ensures s + [] == s && [] + s == s
  {
  }

  lemma {:induction false} SubsetSize<T>(a: set<T>, b: set<T>)
    requires a <= b
    ensures |a| <= |b|
  {
    assert a + (b - a) == b;
  }

  /** `names.filter(Boolean)` */
  function NonEmpty(names: seq<string>): seq<string> {
    if names == [] then [] else (if names[0] == "" then [] else [names[0]]) + NonEmpty(names[1..])
  }

  /** These are the names that are not empty, each at its place and in their order. */
  ghost predicate AreNamed(names: seq<string>, kept: seq<string>) {
    exists places: seq<nat> :: StandAt(names, kept, places)
  }

  ghost predicate StandAt(names: seq<string>, kept: seq<string>, places: seq<nat>) {
    |places| == |kept| && (forall i, j :: 0 <= i < j < |places| ==> places[i] < places[j]) &&
    (forall i :: 0 <= i < |places| ==> places[i] < |names| && names[places[i]] == kept[i] != "") &&
    forall k: nat :: k < |names| && names[k] != "" ==> k in places
  }

  lemma {:induction false} NonEmptyIs(names: seq<string>)
    ensures AreNamed(names, NonEmpty(names))
    decreases |names|
  {
    if names == [] {
      assert StandAt(names, [], []);
    } else {
      var rest := names[1..];
      NonEmptyIs(rest);
      NamesInFront(names[0], rest, NonEmpty(rest));
      assert names == [names[0]] + rest;
    }
  }

  lemma {:induction false} NamesInFront(name: string, rest: seq<string>, kept: seq<string>)
    requires AreNamed(rest, kept)
    ensures AreNamed([name] + rest, (if name == "" then [] else [name]) + kept)
  {
    var places :| StandAt(rest, kept, places);
    NameInFront(name, rest, kept, places);
  }

  lemma {:induction false} NameInFront(name: string, rest: seq<string>, kept: seq<string>, places: seq<nat>)
    requires StandAt(rest, kept, places)
    ensures AreNamed([name] + rest, (if name == "" then [] else [name]) + kept)
  {
    var later := seq(|places|, i requires 0 <= i < |places| => places[i] + 1);
    LaterPlaces(name, rest, kept, places, later);
    if name == "" {
      assert [] + kept == kept;
      assert StandAt([name] + rest, kept, later);
    } else {
      FirstPlace(name, rest, kept, later);
    }
  }

  /** All but what is asked of the name in front. */
  lemma {:induction false} LaterPlaces(name: string, rest: seq<string>, kept: seq<string>, places: seq<nat>,
      later: seq<nat>)
    requires StandAt(rest, kept, places)
    requires |later| == |places| && forall i :: 0 <= i < |later| ==> later[i] == places[i] + 1
    ensures forall i, j :: 0 <= i < j < |later| ==> later[i] < later[j]
    ensures forall i :: 0 <= i < |later| ==> later[i] < |[name] + rest| && ([name] + rest)[later[i]] == kept[i] != ""
    ensures forall k: nat :: 0 < k < |[name] + rest| && ([name] + rest)[k] != "" ==> k in later
  {
    var names := [name] + rest;
    forall k: nat | 0 < k < |names| && names[k] != "" ensures k in later {
      assert names[k] == rest[k - 1];
      var i :| 0 <= i < |places| && places[i] == k - 1;
      assert later[i] == k;
    }
  }

  lemma {:induction false} FirstPlace(name: string, rest: seq<string>, kept: seq<string>, later: seq<nat>)
    requires name != "" && |later| == |kept|
    requires forall i, j :: 0 <= i < j < |later| ==> later[i] < later[j]
    requires forall i :: 0 <= i < |later| ==> 0 < later[i] < |[name] + rest| && ([name] + rest)[later[i]] == kept[i] != ""
    requires forall k: nat :: 0 < k < |[name] + rest| && ([name] + rest)[k] != "" ==> k in later
    ensures AreNamed([name] + rest, [name] + kept)
  {
    var names, all, places := [name] + rest, [name] + kept, [0] + later;
    assert places[0] == 0 && forall i :: 0 < i < |places| ==> places[i] == later[i - 1] && all[i] == kept[i - 1];
    forall k: nat | k < |names| && names[k] != "" ensures k in places {
      if k > 0 {
        var i :| 0 <= i < |later| && later[i] == k;
        assert places[i + 1] == k;
      }
    }
    assert StandAt(names, all, places);
  }

  /** `s.indexOf(c)`, with the length standing for "not found". */
  function IndexOf(s: string, c: char): (i: nat)
    ensures i <= |s|
  {
    if s == "" || s[0] == c then 0 else 1 + IndexOf(s[1..], c)
  }

  lemma {:induction false} IndexOfIsFirst(s: string, c: char)
    ensures IndexOf(s, c) < |s| ==> s[IndexOf(s, c)] == c
    ensures c !in s[..IndexOf(s, c)]
  {
    if s != "" && s[0] != c {
      IndexOfIsFirst(s[1..], c);
      assert s[..IndexOf(s, c)] == [s[0]] + s[1..][..IndexOf(s[1..], c)];
    }
  }

  lemma {:induction false} IndexOfAppend(a: string, b: string, c: char)
    ensures IndexOf(a + b, c) == if IndexOf(a, c) < |a| then IndexOf(a, c) else |a| + IndexOf(b, c)
  {
    if a == "" {
      assert a + b == b;
    } else if a[0] != c {
      TailAppend(a, b);
      IndexOfAppend(a[1..], b, c);
    }
  }
}

/** The streaming text decoder: any byte-at-a-time transducer, which is what a `TextDecoder` is. */
module Decoding {

  type Byte = bv8

  /** From a decoder state and one byte, the next state and the characters that byte completes. */
  type Decoder = (nat, Byte) -> (nat, string)

  /** `decoder.decode(chunk, { stream: true })` */
  function Decode(decoder: Decoder, state: nat, bytes: seq<Byte>): (nat, string)
    decreases |bytes|
  {
    if bytes == [] then (state, "")
    else
      var (next, text) := decoder(state, bytes[0]);
      var (last, rest) := Decode(decoder, next, bytes[1..]);
      (last, text + rest)
  }

  /** Decoding is a streaming homomorphism: a cut anywhere, inside a character too, is invisible. */
  lemma {:induction false} DecodeAppend(decoder: Decoder, state: nat, a: seq<Byte>, b: seq<Byte>)
    ensures var (mid, left) := Decode(decoder, state, a);
            var (end, right) := Decode(decoder, mid, b);
            Decode(decoder, state, a + b) == (end, left + right)
    decreases |a|
  {
    if a == [] {
      assert a + b == b;
      assert "" + Decode(decoder, state, b).1 == Decode(decoder, state, b).1;
    } else {
      assert (a + b)[1..] == a[1..] + b;
      var (next, text) := decoder(state, a[0]);
      DecodeAppend(decoder, next, a[1..], b);
      var (mid, left) := Decode(decoder, next, a[1..]);
      var (end, right) := Decode(decoder, mid, b);
      assert text + (left + right) == (text + left) + right;
    }
  }
}
