/**
 * The rating contract as the pages see it: named read and write calls with their
 * arguments, the outcome of a read, and the per-place average table that both the
 * web page and the mini-app page build from `getAverageX100`.
 *
 * The chain is an oracle: a pure function from a read call to its outcome, standing
 * for one snapshot of the contract's state.
 */
module Contract {
  import opened Wrappers
  import opened JsValues

  type Address = string

  /** An entry of the static place catalogue; only its id reaches the rating logic. */
  datatype Place = Place(id: int)

  /** The two interface languages; they only select alert texts here. */
  datatype Lang = Ru | En

  /** A call or message argument: an address, an unsigned integer, a string, a value passed through as read, a signature. */
  datatype Arg = Addr(a: Address) | Uint(n: int) | Str(s: string) | Value(v: JsValue) | Signature(sig: string)

  datatype ReadCall = ReadCall(fn: string, args: seq<Arg>)

  /** A read either throws (RPC error, unknown function in the ABI, revert) or returns a value. */
  datatype ReadOutcome = Threw | Returned(value: JsValue)

  type Chain = ReadCall -> ReadOutcome

  datatype WriteCall = WriteCall(fn: string, args: seq<Arg>)

  /** The average read, `getAverageX100(placeId)`: the mean rating times 100. */
  function AverageCall(placeId: int): (c: ReadCall)
    ensures c.fn == "getAverageX100" && c.args == [Uint(placeId)]
  {
    ReadCall("getAverageX100", [Uint(placeId)])
  }

  /**
   * `Number(x100) / 100`, or 0 when the read throws, kept as the x100 value.
   * This is `fetchAverage` of the web page and the body of the mini-app loader.
   */
  function AverageOrZero(o: ReadOutcome): (r: Numeric)
    ensures o.Threw? ==> r == Finite(0)
    ensures o.Returned? && (o.value.BigInt? || o.value.Num?) ==> r == Finite(o.value.n)
    ensures o.Returned? ==> r == ToNumber(o.value)
  {
    match o
    case Threw => Finite(0)
    case Returned(x100) => ToNumber(x100)
  }

  function Ids(places: seq<Place>): set<int> {
    set p | p in places :: p.id
  }

  /**
   * The table `{ [p.id]: average }` filled place by place in catalogue order;
   * a later place with the same id overwrites the earlier entry.
   */
  function AverageTable(chain: Chain, places: seq<Place>): (r: map<int, Numeric>)
    ensures r.Keys == Ids(places)
    ensures forall id :: id in r ==> r[id] == AverageOrZero(chain(AverageCall(id)))
  {
    if places == [] then map[]
    else
      var init := places[..|places| - 1];
      var last := places[|places| - 1];
      assert places == init + [last];
      assert Ids(places) == Ids(init) + {last.id};
      AverageTable(chain, init)[last.id := AverageOrZero(chain(AverageCall(last.id)))]
  }

  /** The reads issued by a pass over the catalogue: one average read per place, in order. */
  function AverageReads(places: seq<Place>): (r: seq<ReadCall>)
    ensures |r| == |places|
    ensures forall i :: 0 <= i < |places| ==> r[i] == AverageCall(places[i].id)
  {
    if places == [] then [] else AverageReads(places[..|places| - 1]) + [AverageCall(places[|places| - 1].id)]
  }

  /** One more place extends the table by that place's entry and the reads by its read. */
  lemma AverageStep(chain: Chain, places: seq<Place>, i: nat)
    requires i < |places|
    ensures AverageTable(chain, places[..i + 1])
         == AverageTable(chain, places[..i])[places[i].id := AverageOrZero(chain(AverageCall(places[i].id)))]
    ensures AverageReads(places[..i + 1]) == AverageReads(places[..i]) + [AverageCall(places[i].id)]
  {
    assert places[..i + 1][..i] == places[..i];
  }

  /** `!address` is false: an address is set and is not the empty string. */
  predicate Connected(address: Option<Address>): (r: bool)
    ensures r ==> address.Some?
    ensures address == Some("") ==> !r
    ensures address.Some? && |address.value| > 0 ==> r
  {
    address.Some? && address.value != ""
  }
}
