/**
 * The mini-app page (pages/frame.tsx): finding the account of the host wallet,
 * the per-place average table, the star rendering of an average, and a rating
 * sent as a plain `ratePlace` transaction through the host's provider, followed
 * by a refresh of that one place's average.
 *
 * The provider is an oracle: whether it offers `request`, what `eth_accounts`
 * answers, and whether an `eth_sendTransaction` goes through. The fallback
 * account source `window.farcaster.wallet.getAccounts` is a second reply; a
 * missing fallback answers `undefined`.
 */
module Frame {
  import opened Wrappers
  import opened JsValues
  import opened Contract
  import opened Glyphs
  import Entries

  /** A transaction handed to `eth_sendTransaction`. */
  datatype Tx = Tx(from: Address, to: Address, data: WriteCall, value: int)

  datatype SendOutcome = Sent | SendFailed

  /**
   * `sdk.wallet.ethProvider`: `ready` is false when the provider or its
   * `request` is missing; `accounts` is the answer to `eth_accounts`.
   */
  datatype Provider = Provider(ready: bool, accounts: ReadOutcome, send: Tx -> SendOutcome)

  /** What the page does, in order, during one rating. */
  datatype Event =
    | Busy(sending: Option<int>)   // `setSendingId`
    | Send(tx: Tx)
    | Refresh(averageCall: ReadCall)
    | Alert(text: string)

  function NotConnected(lang: Lang): string {
    match lang
    case Ru => "Farcaster wallet не подключён"
    case En => "Farcaster wallet not connected"
  }

  function TxFailed(lang: Lang): string {
    match lang
    case Ru => "Не удалось отправить транзакцию"
    case En => "Transaction failed"
  }

  // ---------------------------------------------------------------------------
  // The account

  predicate HasHexPrefix(s: string) {
    |s| >= 2 && s[..2] == "0x"
  }

  /** `accs && accs[0]`: the value itself when falsy, otherwise its element 0 (undefined when there is none). */
  function FirstAccount(accs: JsValue): JsValue {
    if !Truthy(accs) then accs
    else
      match accs
      case Arr(items) => if |items| > 0 then items[0] else Undefined
      case Text(s) => Text(s[..1])
      case _ => Undefined
  }

  /**
   * The account accepted from an answer: `a && typeof a === "string" &&
   * a.startsWith("0x")` with `a = accs && accs[0]`. Only a list whose first
   * entry is a "0x" string yields an account, and it is that entry.
   */
  function AcceptAccount(accs: JsValue): (r: Option<Address>)
    ensures r.Some? <==> (accs.Arr? && |accs.items| > 0 && accs.items[0].Text? && HasHexPrefix(accs.items[0].s))
    ensures r.Some? ==> r.value == accs.items[0].s && Connected(r)
  {
    var a := FirstAccount(accs);
    if Truthy(a) && a.Text? && HasHexPrefix(a.s) then Some(a.s) else None
  }

  /**
   * The address the page ends up with: the provider's account when it offers
   * one, otherwise the fallback's, otherwise none.
   */
  function ResolveAddress(provider: Provider, fallback: ReadOutcome): (r: Option<Address>)
    ensures r.Some? ==> HasHexPrefix(r.value) && Connected(r)
    ensures provider.ready && provider.accounts.Returned? && AcceptAccount(provider.accounts.value).Some?
      ==> r == AcceptAccount(provider.accounts.value)
    ensures !(provider.ready && provider.accounts.Returned? && AcceptAccount(provider.accounts.value).Some?) ==>
      r == (if fallback.Returned? then AcceptAccount(fallback.value) else None)
    ensures r.None? <==>
      && !(provider.ready && provider.accounts.Returned? && AcceptAccount(provider.accounts.value).Some?)
      && !(fallback.Returned? && AcceptAccount(fallback.value).Some?)
  {
    var primary := if provider.ready && provider.accounts.Returned? then AcceptAccount(provider.accounts.value) else None;
    if primary.Some? then primary
    else if fallback.Returned? then AcceptAccount(fallback.value)
    else None
  }

  // ---------------------------------------------------------------------------
  // Rendering

  /** `v.toFixed(1)` or a thrown `RangeError`. */
  datatype Rendered = Shown(text: string) | RangeError

  /**
   * The stars of a positive average n (x100) without any upper clamp:
   * floor(n / 100) full stars and a half star when the remainder reaches 0.5.
   */
  function UnclampedStars(n: nat): (s: string)
    ensures |s| == n / 100 + (if n % 100 >= 50 then 1 else 0)
    ensures forall i :: 0 <= i < n / 100 ==> s[i] == FullStar
    ensures n % 100 >= 50 ==> s[n / 100] == HalfStar
    ensures Count(FullStar, s) == n / 100
    ensures StarValue(s) <= n < StarValue(s) + 50
  {
    StarGlyphs(n / 100, n % 100 >= 50)
  }

  /**
   * `renderStars(v)` for v = x100 / 100: the dash for a missing, NaN or zero
   * average; a `RangeError` from `repeat` for a negative one; otherwise the
   * stars followed by the average to one decimal, `fixed(x100)`.
   */
  function RenderStars(v: Option<Numeric>, fixed: int -> string): (r: Rendered)
    ensures r == Shown(Placeholder) <==> v.None? || !NumericTruthy(v.value)
    ensures r == RangeError <==> v.Some? && v.value.Finite? && v.value.n < 0
    ensures v.Some? && v.value.Finite? && v.value.n > 0 ==>
      r == Shown(UnclampedStars(v.value.n) + " (" + fixed(v.value.n) + ")")
  {
    match v
    case None => Shown(Placeholder)
    case Some(x) =>
      if !NumericTruthy(x) then Shown(Placeholder)
      else if x.n < 0 then RangeError
      else
        var s := UnclampedStars(x.n) + " (" + fixed(x.n) + ")";
        assert s[0] != Placeholder[0] by {
          if |UnclampedStars(x.n)| > 0 {
            assert UnclampedStars(x.n)[0] == s[0];
          }
        }
        Shown(s)
  }

  /**
   * The star strings of this page and of the "my ratings" page agree on every
   * average a rating from 1 to 5 can produce, and part ways above 5.99, where
   * the other page stops at five stars, and below zero, where it shows nothing
   * while this page throws.
   */
  lemma StarsOfBothPages(n: int)
    ensures 0 < n < 600 ==> Entries.Stars(Some(n)) == UnclampedStars(n)
    ensures n >= 600 ==> Count(FullStar, Entries.Stars(Some(n))) < Count(FullStar, UnclampedStars(n))
    ensures n == 0 ==> Entries.Stars(Some(n)) == Placeholder && RenderStars(Some(Finite(n)), _ => "") == Shown(Placeholder)
    ensures n < 0 ==> Entries.Stars(Some(n)) == "" && RenderStars(Some(Finite(n)), _ => "") == RangeError
  {
  }

  // ---------------------------------------------------------------------------
  // Rating

  /** `encodeFunctionData` of `ratePlace(placeId, rating)`. */
  function RateCall(placeId: int, rating: int): WriteCall {
    WriteCall("ratePlace", [Uint(placeId), Uint(rating)])
  }

  /** Whether the transaction reached the provider and was accepted. */
  predicate SendSucceeds(contract: Address, address: Option<Address>, provider: Provider, placeId: int, rating: int)
    requires address.Some?
  {
    provider.ready && provider.send(Tx(address.value, contract, RateCall(placeId, rating), 0)).Sent?
  }

  /**
   * The events of `ratePlace` on a page at `address`. Without an address: the
   * alert alone, the buttons untouched. Otherwise the place's buttons are
   * disabled, the transaction is sent, on success the place's average is
   * re-read and on any failure the alert shown, and the buttons are enabled
   * again whatever happened.
   */
  function RateEvents(contract: Address, address: Option<Address>, provider: Provider,
                      lang: Lang, placeId: int, rating: int): (es: seq<Event>)
    ensures !Connected(address) ==> es == [Alert(NotConnected(lang))]
    ensures Connected(address) ==>
      && |es| == (if provider.ready then 4 else 3)
      && es[0] == Busy(Some(placeId))
      && es[|es| - 1] == Busy(None)
    ensures Connected(address) && provider.ready ==>
      es[1] == Send(Tx(address.value, contract, RateCall(placeId, rating), 0))
    ensures Connected(address) && SendSucceeds(contract, address, provider, placeId, rating) ==>
      es[2] == Refresh(AverageCall(placeId))
    ensures Connected(address) && !SendSucceeds(contract, address, provider, placeId, rating) ==>
      es[|es| - 2] == Alert(TxFailed(lang))
    ensures forall i :: 0 <= i < |es| && es[i].Send? ==>
      && Connected(address) && provider.ready && i == 1
      && es[i].tx == Tx(address.value, contract, RateCall(placeId, rating), 0)
    ensures forall i :: 0 <= i < |es| && es[i].Refresh? ==>
      && i == 2 && es[1].Send? && provider.send(es[1].tx).Sent?
      && es[i].averageCall == AverageCall(placeId)
    ensures Connected(address) ==>
      ((exists i :: 0 <= i < |es| && es[i].Alert?) <==> !SendSucceeds(contract, address, provider, placeId, rating))
  {
    if !Connected(address) then [Alert(NotConnected(lang))]
    else
      var tx := Tx(address.value, contract, RateCall(placeId, rating), 0);
      if !provider.ready then
        var es := [Busy(Some(placeId)), Alert(TxFailed(lang)), Busy(None)];
        assert es[1].Alert?;
        es
      else if provider.send(tx).SendFailed? then
        var es := [Busy(Some(placeId)), Send(tx), Alert(TxFailed(lang)), Busy(None)];
        assert es[2].Alert?;
        es
      else
        [Busy(Some(placeId)), Send(tx), Refresh(AverageCall(placeId)), Busy(None)]
  }

  /** `sendingId` after the page has gone through `es`, starting from `s`: the last `Busy` event wins. */
  function SendingAfter(s: Option<int>, es: seq<Event>): (r: Option<int>)
    ensures (forall i :: 0 <= i < |es| ==> !es[i].Busy?) ==> r == s
    ensures es != [] && es[|es| - 1].Busy? ==> r == es[|es| - 1].sending
  {
    if es == [] then s
    else if es[|es| - 1].Busy? then es[|es| - 1].sending
    else SendingAfter(s, es[..|es| - 1])
  }

  /**
   * While a rating is in flight (after its first event and before its last)
   * the rated place is the one whose buttons are disabled, and only it; once
   * the rating ends nothing is in flight. Without an address `sendingId` is
   * never touched.
   */
  lemma {:induction false} BusyWhileInFlight(contract: Address, address: Option<Address>, provider: Provider,
                                             lang: Lang, placeId: int, rating: int, s: Option<int>)
    ensures var es := RateEvents(contract, address, provider, lang, placeId, rating);
      Connected(address) ==> forall k :: 1 <= k < |es| ==> SendingAfter(s, es[..k]) == Some(placeId)
    ensures var es := RateEvents(contract, address, provider, lang, placeId, rating);
      SendingAfter(s, es) == if Connected(address) then None else s
  {
    var es := RateEvents(contract, address, provider, lang, placeId, rating);
    if Connected(address) {
      forall k | 1 <= k < |es| ensures SendingAfter(s, es[..k]) == Some(placeId) {
        var j := k;
        while j > 1
          invariant 1 <= j <= k
          invariant SendingAfter(s, es[..j]) == SendingAfter(s, es[..k])
        {
          assert es[..j][..j - 1] == es[..j - 1];
          assert !es[j - 1].Busy?;
          j := j - 1;
        }
        assert es[..1] == [es[0]];
      }
    }
  }

  /**
   * The table after the refresh that follows a successful send: the place's
   * entry replaced by the new read, or nothing changed when that read throws
   * (unlike the loader, no 0 is stored).
   */
  function Refreshed(m: map<int, Numeric>, placeId: int, o: ReadOutcome): (r: map<int, Numeric>)
    ensures r.Keys == if o.Returned? then m.Keys + {placeId} else m.Keys
    ensures forall id :: id in m && id != placeId ==> r[id] == m[id]
    ensures o.Returned? ==> r[placeId] == ToNumber(o.value)
    ensures o.Threw? ==> r == m
  {
    match o
    case Threw => m
    case Returned(x100) => m[placeId := ToNumber(x100)]
  }

  // ---------------------------------------------------------------------------
  // The page state

  class FramePage {
    const contract: Address
    var lang: Lang
    var address: Option<Address>
    var avgMap: map<int, Numeric>
    var loadingAvg: bool
    var sendingId: Option<int>

    constructor (contract: Address)
      ensures this.contract == contract
      ensures lang == Ru && address == None && avgMap == map[] && !loadingAvg && sendingId == None
    {
      this.contract := contract;
      lang := Ru;
      address := None;
      avgMap := map[];
      loadingAvg := false;
      sendingId := None;
    }

    /** The rating buttons of place `id` are disabled while its transaction is in flight. */
    predicate RatingDisabled(id: int): (r: bool)
      reads this
      ensures sendingId.None? ==> !r
      ensures r ==> sendingId == Some(id)
      ensures sendingId == Some(id) ==> r
    {
      sendingId == Some(id)
    }

    /** At most one place has its buttons disabled at any time. */
    lemma AtMostOneDisabled(a: int, b: int)
      requires RatingDisabled(a) && RatingDisabled(b)
      ensures a == b
    {
    }

    /** The average line of place `id`: an ellipsis while loading, otherwise its stars. */
    function AverageText(id: int, fixed: int -> string): (r: Rendered)
      reads this
      ensures loadingAvg ==> r == Shown("…")
      ensures !loadingAvg && id !in avgMap ==> r == Shown(Placeholder)
      ensures !loadingAvg && id in avgMap ==> r == RenderStars(Some(avgMap[id]), fixed)
    {
      if loadingAvg then Shown("…") else RenderStars(if id in avgMap then Some(avgMap[id]) else None, fixed)
    }

    /** The handshake effect: ask the provider, then the fallback, for the account. */
    method Handshake(provider: Provider, fallback: ReadOutcome)
      modifies this`address
      ensures address == ResolveAddress(provider, fallback)
    {
      if provider.ready && provider.accounts.Returned? {
        var accepted := AcceptAccount(provider.accounts.value);
        if accepted.Some? {
          address := accepted;
          return;
        }
      }
      if fallback.Returned? {
        address := AcceptAccount(fallback.value);
      } else {
        address := None;
      }
    }

    /** The loader effect: fill the table place by place; returns the reads made. */
    method LoadAverages(chain: Chain, places: seq<Place>) returns (calls: seq<ReadCall>)
      modifies this`avgMap, this`loadingAvg
      ensures avgMap == AverageTable(chain, places) && !loadingAvg
      ensures calls == AverageReads(places)
    {
      loadingAvg := true;
      var out: map<int, Numeric> := map[];
      calls := [];
      for i := 0 to |places|
        invariant out == AverageTable(chain, places[..i])
        invariant calls == AverageReads(places[..i])
      {
        var p := places[i];
        AverageStep(chain, places, i);
        out := out[p.id := AverageOrZero(chain(AverageCall(p.id)))];
        calls := calls + [AverageCall(p.id)];
      }
      assert places[..|places|] == places;
      avgMap := out;
      loadingAvg := false;
    }

    /**
     * `ratePlace(placeId, rating)`, with `after` the chain as read once the
     * transaction went through. Returns the events, in order.
     */
    method RatePlace(provider: Provider, after: Chain, placeId: int, rating: int) returns (events: seq<Event>)
      modifies this`sendingId, this`avgMap
      ensures events == RateEvents(contract, address, provider, lang, placeId, rating)
      ensures sendingId == if Connected(address) then None else old(sendingId)
      ensures Connected(address) ==> forall id :: !RatingDisabled(id)
      ensures sendingId == SendingAfter(old(sendingId), events)
      ensures Connected(address) ==>
        forall k :: 1 <= k < |events| ==> SendingAfter(old(sendingId), events[..k]) == Some(placeId)
      ensures Connected(address) && SendSucceeds(contract, address, provider, placeId, rating)
        ==> avgMap == Refreshed(old(avgMap), placeId, after(AverageCall(placeId)))
      ensures !(Connected(address) && SendSucceeds(contract, address, provider, placeId, rating))
        ==> avgMap == old(avgMap)
    {
      BusyWhileInFlight(contract, address, provider, lang, placeId, rating, sendingId);
      if !Connected(address) {
        events := [Alert(NotConnected(lang))];
        return;
      }
      var tx := Tx(address.value, contract, RateCall(placeId, rating), 0);
      sendingId := Some(placeId);
      events := [Busy(sendingId)];
      if !provider.ready {
        events := events + [Alert(TxFailed(lang))];
      } else {
        events := events + [Send(tx)];
        if provider.send(tx).SendFailed? {
          events := events + [Alert(TxFailed(lang))];
        } else {
          var call := AverageCall(placeId);
          events := events + [Refresh(call)];
          var x100 := after(call);
          if x100.Returned? {
            avgMap := avgMap[placeId := ToNumber(x100.value)];
          }
        }
      }
      sendingId := None;
      events := events + [Busy(sendingId)];
    }
  }
}
