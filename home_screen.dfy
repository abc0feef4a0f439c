/**
 The home screen (`Components/HomeScreen/index.jsx`): the guard in front of the home request,
 how the reply becomes `cardData`, and the list of accordion blocks derived from it. JSON
 values are modelled as a datatype, an object as its key/value pairs in `Object.keys` order.
 */
module HomeScreen {
  import opened Wrappers
  import Numerals

  /** A parsed JSON value. */
  datatype Value =
    | VNull
    | VBool(b: bool)
    | VNumber(n: int)
    | VString(s: string)
    | VArray(elems: seq<Value>)
    | VObject(fields: seq<(string, Value)>)

  /** JavaScript truthiness. */
  predicate Truthy(v: Value) {
    match v
    case VNull => false
    case VBool(b) => b
    case VNumber(n) => n != 0
    case VString(s) => s != ""
    case _ => true
  }

  /** The value of the field named `key`, None for `undefined`. Only objects have named
      fields here. */
  function Field(v: Value, key: string): (r: Option<Value>)
    ensures r.Some? ==> v.VObject?
    ensures v.VObject? ==> r == LastField(v.fields, key)
  {
    if v.VObject? then LastField(v.fields, key) else None
  }

  /** Property access on a parsed object: `JSON.parse` keeps the last of duplicate keys, so
      the lookup reads the last field with the key. */
  function LastField(fields: seq<(string, Value)>, key: string): (r: Option<Value>)
    ensures r.Some? <==> exists i :: 0 <= i < |fields| && fields[i].0 == key
    ensures r.Some? ==> exists i :: 0 <= i < |fields| && fields[i].0 == key && r.value == fields[i].1 &&
                                    forall j :: i < j < |fields| ==> fields[j].0 != key
  {
    if |fields| == 0 then None
    else if fields[|fields| - 1].0 == key then Some(fields[|fields| - 1].1)
    else
      var r := LastField(fields[..|fields| - 1], key);
      assert forall i :: 0 <= i < |fields| - 1 ==> fields[..|fields| - 1][i] == fields[i];
      r
  }

  // ---------------------------------------------------------------------------------------
  // The request guard and the reply

  /** `if (!userName.id) return;`: the request is made only when the stored user has a truthy
      id. Before the stored user is read, `userName` is the empty string, which has no id. */
  predicate ShouldFetch(user: Value) {
    var id := Field(user, "id");
    id.Some? && Truthy(id.value)
  }

  /** The home request's outcome: it threw (network or HTTP error), or answered with a body. */
  datatype HomeReply = Failed | Answered(body: Value)

  /** The new `cardData`: `response.data.data || {}` when the body is truthy; otherwise, and
      when the request throws, an alert is shown and `cardData` stays. */
  function NextCardData(prev: Value, reply: HomeReply): (r: Value)
    ensures reply.Failed? || !Truthy(reply.body) ==> r == prev
    ensures reply.Answered? && Truthy(reply.body) ==> Truthy(r) || r == VObject([])
    ensures reply.Answered? && Truthy(reply.body) ==>
      r == (if Field(reply.body, "data").Some? && Truthy(Field(reply.body, "data").value)
            then Field(reply.body, "data").value else VObject([]))
  {
    match reply
    case Failed => prev
    case Answered(body) =>
      if !Truthy(body) then prev
      else
        var d := Field(body, "data");
        if d.Some? && Truthy(d.value) then d.value else VObject([])
  }

  const InitialCardData := VObject([])

  /** The screen starts from the user `""`, which has no id and fetches nothing, and from the
      card data `{}`, which is truthy and has no keys. */
  lemma InitialState()
    ensures !ShouldFetch(VString(""))
    ensures Truthy(InitialCardData) && Entries(InitialCardData) == Some([])
  {
  }

  /** `cardData` is never null: it starts as `{}` and every update is truthy or `{}`. */
  lemma {:induction false} CardDataNeverNull(replies: seq<HomeReply>)
    ensures CardDataAfter(replies) != VNull
  {
    if |replies| > 0 {
      CardDataNeverNull(replies[..|replies| - 1]);
    }
  }

  function CardDataAfter(replies: seq<HomeReply>): Value {
    if |replies| == 0 then InitialCardData
    else NextCardData(CardDataAfter(replies[..|replies| - 1]), replies[|replies| - 1])
  }

  /** The request is made exactly when the stored user is an object whose last `id` field is
      truthy; a user that is not an object (the initial "") never triggers it. */
  lemma ShouldFetchMeaning(user: Value)
    ensures ShouldFetch(user) <==>
      user.VObject? && exists i :: 0 <= i < |user.fields| && user.fields[i].0 == "id" && Truthy(user.fields[i].1) &&
                                  forall j :: i < j < |user.fields| ==> user.fields[j].0 != "id"
  {
    if user.VObject? {
      var fs := user.fields;
      if exists i :: 0 <= i < |fs| && fs[i].0 == "id" && Truthy(fs[i].1) && forall j :: i < j < |fs| ==> fs[j].0 != "id" {
        var i :| 0 <= i < |fs| && fs[i].0 == "id" && Truthy(fs[i].1) && forall j :: i < j < |fs| ==> fs[j].0 != "id";
        var k :| 0 <= k < |fs| && fs[k].0 == "id" && LastField(fs, "id").value == fs[k].1 &&
                 forall j :: k < j < |fs| ==> fs[j].0 != "id";
        assert k == i;
      }
    }
  }

  /** A stored user whose id is 0 is treated as having none. */
  lemma ZeroIdSkipsFetch()
    ensures !ShouldFetch(VObject([("id", VNumber(0))]))
    ensures ShouldFetch(VObject([("id", VNumber(12))]))
    ensures !ShouldFetch(VString(""))
  {
  }

  // ---------------------------------------------------------------------------------------
  // The accordion blocks

  /** `value.length`: reading it on null throws; strings and arrays have one; the other values
      give `undefined`. */
  datatype Length = Throws | Undefined | Len(n: nat)

  function LengthOf(v: Value): (r: Length)
    ensures r.Throws? <==> v.VNull?
  {
    match v
    case VNull => Throws
    case VString(s) => Len(|s|)
    case VArray(xs) => Len(|xs|)
    case _ => Undefined
  }

  /** `cardData[key].length > 0`; `undefined > 0` is false. */
  predicate NonEmpty(v: Value) {
    LengthOf(v).Len? && LengthOf(v).n > 0
  }

  /** `Object.keys(v)` paired with the values: an object's own keys, the indices of an array or
      a string, none for a number or a boolean; null throws. */
  function Entries(v: Value): (r: Option<seq<(string, Value)>>)
    ensures r.None? <==> v.VNull?
    ensures v.VObject? ==> r == Some(v.fields)
  {
    match v
    case VNull => None
    case VObject(fields) => Some(v.fields)
    case VArray(xs) => Some(Indexed(xs, 0))
    case VString(s) => Some(Indexed(Chars(s), 0))
    case _ => Some([])
  }

  function Chars(s: string): (r: seq<Value>)
    ensures |r| == |s|
  {
    if |s| == 0 then [] else [VString([s[0]])] + Chars(s[1..])
  }

  function Indexed(xs: seq<Value>, from: nat): (r: seq<(string, Value)>)
    ensures |r| == |xs|
  {
    if |xs| == 0 then [] else [(Numerals.Decimal(from), xs[0])] + Indexed(xs[1..], from + 1)
  }

  /** One accordion block. */
  datatype Entry = Entry(title: string, data: Value)

  /** `filter` then `map` over the entries: each entry with a non-empty value becomes a block;
      the filter throws on a null value, so then the list is not produced at all. */
  function Blocks(es: seq<(string, Value)>): Option<seq<Entry>> {
    if |es| == 0 then Some([])
    else if es[0].1 == VNull then None
    else match Blocks(es[1..])
      case None => None
      case Some(rest) => Some((if NonEmpty(es[0].1) then [Entry(es[0].0, es[0].1)] else []) + rest)
  }

  /** The block list is missing exactly when some value is null. Otherwise each block is a key
      with its value and a positive length, and every key whose value has a positive length
      has its block. */
  lemma {:induction false} BlocksMeaning(es: seq<(string, Value)>)
    ensures Blocks(es).None? <==> exists i :: 0 <= i < |es| && es[i].1 == VNull
    ensures Blocks(es).Some? ==> |Blocks(es).value| <= |es|
    ensures Blocks(es).Some? ==> forall e :: e in Blocks(es).value ==> (e.title, e.data) in es && NonEmpty(e.data)
    ensures Blocks(es).Some? ==>
      forall i :: 0 <= i < |es| && NonEmpty(es[i].1) ==> Entry(es[i].0, es[i].1) in Blocks(es).value
  {
    if |es| > 0 {
      var tail := es[1..];
      BlocksMeaning(tail);
      assert forall i :: 1 <= i < |es| ==> es[i] == tail[i - 1];
      if es[0].1 != VNull && Blocks(tail).None? {
        var i :| 0 <= i < |tail| && tail[i].1 == VNull;
        assert es[i + 1].1 == VNull;
      }
    }
  }

  /** `accordionData`. */
  function AccordionData(card: Value): Option<seq<Entry>> {
    match Entries(card)
    case None => None
    case Some(es) => Blocks(es)
  }

  /** The blocks keep the order of the keys: the list of a concatenation is the concatenation
      of the lists. */
  lemma {:induction false} BlocksConcat(a: seq<(string, Value)>, b: seq<(string, Value)>)
    ensures Blocks(a + b) == (if Blocks(a).Some? && Blocks(b).Some? then Some(Blocks(a).value + Blocks(b).value) else None)
  {
    if |a| == 0 {
      assert a + b == b;
      if Blocks(b).Some? { assert [] + Blocks(b).value == Blocks(b).value; }
    } else {
      var ab := a + b;
      assert ab[0] == a[0] && ab[1..] == a[1..] + b;
      BlocksConcat(a[1..], b);
      var x, y, z := Blocks(a[1..]), Blocks(b), Blocks(a[1..] + b);
      if a[0].1 != VNull && x.Some? && y.Some? {
        var here := if NonEmpty(a[0].1) then [Entry(a[0].0, a[0].1)] else [];
        assert Blocks(a).value == here + x.value;
        assert Blocks(ab).value == here + z.value;
        assert here + (x.value + y.value) == (here + x.value) + y.value;
      }
    }
  }

  predicate DistinctKeys(es: seq<(string, Value)>) {
    forall i, j :: 0 <= i < j < |es| ==> es[i].0 != es[j].0
  }

  function Titles(bs: seq<Entry>): (r: seq<string>)
    ensures |r| == |bs|
    ensures forall i :: 0 <= i < |bs| ==> r[i] == bs[i].title
  {
    if |bs| == 0 then [] else [bs[0].title] + Titles(bs[1..])
  }

  predicate DistinctTitles(bs: seq<Entry>) {
    forall i, j :: 0 <= i < j < |bs| ==> bs[i].title != bs[j].title
  }

  /** A title is always one of the keys. */
  lemma TitleNotKey(es: seq<(string, Value)>, key: string)
    requires Blocks(es).Some? && forall m :: 0 <= m < |es| ==> es[m].0 != key
    ensures forall e :: e in Blocks(es).value ==> e.title != key
  {
    BlocksMeaning(es);
    forall e | e in Blocks(es).value ensures e.title != key {
      var m :| 0 <= m < |es| && es[m] == (e.title, e.data);
    }
  }

  lemma ConsDistinct(x: Entry, tail: seq<Entry>)
    requires DistinctTitles(tail) && forall e :: e in tail ==> e.title != x.title
    ensures DistinctTitles([x] + tail)
  {
    var bs := [x] + tail;
    forall i, j | 0 <= i < j < |bs| ensures bs[i].title != bs[j].title {
      if i == 0 { assert bs[j] == tail[j - 1]; } else { assert bs[i] == tail[i - 1] && bs[j] == tail[j - 1]; }
    }
  }

  /** Keys of a JSON object are distinct, so the titles, which serve as the list keys, are. */
  lemma {:induction false} TitlesDistinct(es: seq<(string, Value)>)
    requires DistinctKeys(es) && Blocks(es).Some?
    ensures DistinctTitles(Blocks(es).value)
  {
    if |es| > 0 {
      var rest := es[1..];
      assert DistinctKeys(rest) && forall m :: 0 <= m < |rest| ==> rest[m].0 != es[0].0 by {
        forall m | 0 <= m < |rest| ensures rest[m] == es[m + 1] {}
      }
      TitlesDistinct(rest);
      TitleNotKey(rest, es[0].0);
      var tail := Blocks(rest).value;
      if NonEmpty(es[0].1) {
        assert Blocks(es).value == [Entry(es[0].0, es[0].1)] + tail;
        ConsDistinct(Entry(es[0].0, es[0].1), tail);
      } else {
        assert Blocks(es).value == [] + tail;
      }
    }
  }

  /** An empty `cardData`, the value before any reply and after a reply without data, gives no
      blocks. */
  lemma EmptyCardGivesNoBlocks(prev: Value)
    ensures AccordionData(InitialCardData) == Some([])
    ensures AccordionData(NextCardData(prev, Answered(VObject([("status", VBool(true))])))) == Some([])
  {
    assert LastField([("status", VBool(true))], "data") == None by {
      assert [("status", VBool(true))][..0] == [];
    }
  }

  /** The filter is by `length`, so the greeting string `today_update` becomes a block of its
      own, while an empty block list is dropped. */
  lemma TodayUpdateIsABlock()
    ensures var card := VObject([("today_update", VString("Water off at 2pm")), ("A", VArray([])),
                                 ("B", VArray([VNumber(1)]))]);
            AccordionData(card).Some?
              && Titles(AccordionData(card).value) == ["today_update", "B"]
  {
    var es := [("today_update", VString("Water off at 2pm")), ("A", VArray([])), ("B", VArray([VNumber(1)]))];
    var e1 := [("A", VArray([])), ("B", VArray([VNumber(1)]))];
    var e2 := [("B", VArray([VNumber(1)]))];
    assert es[1..] == e1 && e1[1..] == e2 && e2[1..] == [];
    var b := Entry("B", VArray([VNumber(1)]));
    assert NonEmpty(b.data) && Blocks(e2[1..]) == Some([]);
    assert Blocks(e2).value == [b] + [];
    assert !NonEmpty(VArray([])) && Blocks(e1).value == [] + Blocks(e2).value;
    var t := Entry("today_update", VString("Water off at 2pm"));
    assert NonEmpty(t.data) && es[0] == (t.title, t.data);
    assert Blocks(es).value == [t] + Blocks(e1).value;
    var bs := Blocks(es).value;
    assert bs == [t, b];
    assert Titles(bs) == ["today_update", "B"];
  }

  /** A null block makes the derivation throw, wherever it sits. */
  lemma NullBlockThrows(a: seq<(string, Value)>, key: string, b: seq<(string, Value)>)
    ensures AccordionData(VObject(a + [(key, VNull)] + b)) == None
  {
    var es := a + [(key, VNull)] + b;
    assert es[|a|].1 == VNull;
    BlocksMeaning(es);
  }
}
