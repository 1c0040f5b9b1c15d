/**
 * The web page (pages/web.tsx): the per-place average table, and the signed
 * rating submission: read the next nonce, build the EIP-712 `Rating` message, have
 * the wallet sign it, send `submitRating`, reload the averages. Nothing in the
 * submission catches an exception, so the first step that fails ends it.
 *
 * The wallet is an oracle that signs or refuses, and sends a write or fails. The
 * chain is read through two oracles: `chain` before the write and `after` for the
 * reload that follows it.
 */
module Web {
  import opened Wrappers
  import opened JsValues
  import opened Contract
  import opened TypedData

  datatype SignOutcome = Signed(signature: string) | SignFailed
  datatype WriteOutcome = Written | WriteFailed

  /** `walletClient`: `signTypedData` and `writeContract`. */
  datatype Wallet = Wallet(sign: TypedMessage -> SignOutcome, write: WriteCall -> WriteOutcome)

  /** What the page does, in order, during one rating. */
  datatype Step =
    | NonceRead(nonceCall: ReadCall)
    | SignRequest(typed: TypedMessage)
    | SubmitWrite(submit: WriteCall)
    | AverageRead(averageCall: ReadCall)
    | Alert(text: string)

  /** Validity window of a signed rating, in seconds. */
  const DeadlineWindow: int := 5 * 60

  /** `Math.floor(Date.now() / 1000) + 5 * 60`, from the clock in milliseconds. */
  function Deadline(nowMs: int): (d: int)
    ensures (d - DeadlineWindow) * 1000 <= nowMs < (d - DeadlineWindow + 1) * 1000
  {
    nowMs / 1000 + DeadlineWindow
  }

  function NonceCall(rater: Address, placeId: int): ReadCall {
    ReadCall("getNextNonce", [Addr(rater), Uint(placeId)])
  }

  /** `submitRating(rater, placeId, rating, deadline, signature)`: the nonce is not passed. */
  function SubmitCall(rater: Address, placeId: int, rating: int, deadline: int, signature: string): WriteCall {
    WriteCall("submitRating", [Addr(rater), Uint(placeId), Uint(rating), Uint(deadline), Signature(signature)])
  }

  function ConnectFirst(lang: Lang): string {
    match lang
    case Ru => "Сначала подключите кошелёк"
    case En => "Connect wallet first"
  }

  /** `fetchAverage`: the average (x100) of one place, 0 when the read fails. */
  function FetchAverage(chain: Chain, placeId: int): (r: Numeric)
    ensures chain(AverageCall(placeId)).Threw? ==> r == Finite(0)
    ensures chain(AverageCall(placeId)).Returned? && chain(AverageCall(placeId)).value.BigInt? ==>
      r == Finite(chain(AverageCall(placeId)).value.n)
    ensures chain(AverageCall(placeId)).Returned? ==> r == ToNumber(chain(AverageCall(placeId)).value)
  {
    AverageOrZero(chain(AverageCall(placeId)))
  }

  /** The steps of the reload: one average read per place. */
  function ReloadSteps(places: seq<Place>): (r: seq<Step>)
    ensures |r| == |places|
    ensures forall i :: 0 <= i < |r| ==> r[i] == AverageRead(AverageCall(places[i].id))
  {
    if places == [] then [] else ReloadSteps(places[..|places| - 1]) + [AverageRead(AverageCall(places[|places| - 1].id))]
  }

  /** Where a submission by a connected rater stops. */
  datatype Outcome = NonceUnavailable | SigningFailed | SubmissionFailed | Submitted

  function SubmitOutcome(contract: Address, rater: Address, chain: Chain, wallet: Wallet,
                         nowMs: int, placeId: int, rating: int): (out: Outcome)
    ensures out == NonceUnavailable <==> chain(NonceCall(rater, placeId)).Threw?
    ensures out != NonceUnavailable ==>
      var typed := BuildRating(contract, rater, placeId, rating, chain(NonceCall(rater, placeId)).value, Deadline(nowMs));
      && (out == SigningFailed <==> wallet.sign(typed).SignFailed?)
      && (out == Submitted ==>
            wallet.sign(typed).Signed?
            && wallet.write(SubmitCall(rater, placeId, rating, Deadline(nowMs), wallet.sign(typed).signature)).Written?)
      && (out == SubmissionFailed ==>
            wallet.sign(typed).Signed?
            && wallet.write(SubmitCall(rater, placeId, rating, Deadline(nowMs), wallet.sign(typed).signature)).WriteFailed?)
  {
    var nonce := chain(NonceCall(rater, placeId));
    if nonce.Threw? then NonceUnavailable
    else
      var typed := BuildRating(contract, rater, placeId, rating, nonce.value, Deadline(nowMs));
      var signed := wallet.sign(typed);
      if signed.SignFailed? then SigningFailed
      else if wallet.write(SubmitCall(rater, placeId, rating, Deadline(nowMs), signed.signature)).WriteFailed? then SubmissionFailed
      else Submitted
  }

  /** The steps of `ratePlace` once an address is connected; their order is fixed by SubmitStepsOrder. */
  function SubmitSteps(contract: Address, rater: Address, chain: Chain, wallet: Wallet,
                       places: seq<Place>, nowMs: int, placeId: int, rating: int): (steps: seq<Step>)
    ensures |steps| >= 1 && steps[0] == NonceRead(NonceCall(rater, placeId))
    ensures var out := SubmitOutcome(contract, rater, chain, wallet, nowMs, placeId, rating);
      && (out == NonceUnavailable ==> |steps| == 1)
      && (out == SigningFailed ==> |steps| == 2)
      && (out == SubmissionFailed ==> |steps| == 3)
      && (out == Submitted ==> |steps| >= 3 && steps[3..] == ReloadSteps(places))
    ensures var out := SubmitOutcome(contract, rater, chain, wallet, nowMs, placeId, rating);
      out != NonceUnavailable ==>
        steps[1] == SignRequest(BuildRating(contract, rater, placeId, rating, chain(NonceCall(rater, placeId)).value, Deadline(nowMs)))
    ensures var out := SubmitOutcome(contract, rater, chain, wallet, nowMs, placeId, rating);
      (out == SubmissionFailed || out == Submitted) ==>
        && steps[1].SignRequest?
        && steps[2] == SubmitWrite(SubmitCall(rater, placeId, rating, Deadline(nowMs), wallet.sign(steps[1].typed).signature))
  {
    var deadline := Deadline(nowMs);
    var nonce := chain(NonceCall(rater, placeId));
    var first := [NonceRead(NonceCall(rater, placeId))];
    if nonce.Threw? then first
    else
      var typed := BuildRating(contract, rater, placeId, rating, nonce.value, deadline);
      var signed := wallet.sign(typed);
      if signed.SignFailed? then first + [SignRequest(typed)]
      else
        var call := SubmitCall(rater, placeId, rating, deadline, signed.signature);
        if wallet.write(call).WriteFailed? then first + [SignRequest(typed), SubmitWrite(call)]
        else first + [SignRequest(typed), SubmitWrite(call)] + ReloadSteps(places)
  }

  /**
   * The order of a submission. The nonce read comes first; a signature is
   * requested only with the nonce that read returned; a write is sent only with
   * the signature the wallet returned and the deadline that was signed; the
   * averages are reloaded only after the write went through; nothing alerts.
   */
  lemma SubmitStepsOrder(contract: Address, rater: Address, chain: Chain, wallet: Wallet,
                         places: seq<Place>, nowMs: int, placeId: int, rating: int)
    ensures var steps := SubmitSteps(contract, rater, chain, wallet, places, nowMs, placeId, rating);
      && (chain(NonceCall(rater, placeId)).Threw? ==> |steps| == 1)
      && (forall i :: 0 <= i < |steps| && steps[i].SignRequest? ==>
            && i == 1
            && chain(NonceCall(rater, placeId)).Returned?
            && steps[i].typed == BuildRating(contract, rater, placeId, rating, chain(NonceCall(rater, placeId)).value, Deadline(nowMs)))
      && (forall i :: 0 <= i < |steps| && steps[i].SubmitWrite? ==>
            && i == 2 && steps[1].SignRequest?
            && wallet.sign(steps[1].typed).Signed?
            && steps[i].submit == SubmitCall(rater, placeId, rating, Deadline(nowMs), wallet.sign(steps[1].typed).signature))
      && (forall i :: 0 <= i < |steps| && steps[i].AverageRead? ==>
            i >= 3 && steps[2].SubmitWrite? && wallet.write(steps[2].submit).Written?)
      && (forall i :: 0 <= i < |steps| ==> !steps[i].Alert?)
  {
  }

  /**
   * The write carries the signed message's values in schema order, with the nonce
   * left out and the signature appended; in particular the same deadline.
   */
  lemma WriteMatchesSignedMessage(contract: Address, rater: Address, chain: Chain, wallet: Wallet,
                                  places: seq<Place>, nowMs: int, placeId: int, rating: int, i: int)
    requires var steps := SubmitSteps(contract, rater, chain, wallet, places, nowMs, placeId, rating);
      0 <= i < |steps| && steps[i].SubmitWrite?
    ensures var steps := SubmitSteps(contract, rater, chain, wallet, places, nowMs, placeId, rating);
      var signed := StructValues(steps[1].typed.types, steps[1].typed.message);
      && steps[i].submit.fn == "submitRating"
      && steps[i].submit.args[..4] == signed[..3] + [signed[4]]
      && signed[3] == Value(chain(NonceCall(rater, placeId)).value)
      && signed[4] == Uint(Deadline(nowMs))
      && steps[i].submit.args[4] == Signature(wallet.sign(steps[1].typed).signature)
  {
    SubmitStepsOrder(contract, rater, chain, wallet, places, nowMs, placeId, rating);
  }

  class WebPage {
    const contract: Address
    var lang: Lang
    var address: Option<string>
    var ratings: map<int, Numeric>
    var loading: bool

    constructor (contract: Address)
      ensures this.contract == contract
      ensures lang == Ru && address == None && ratings == map[] && !loading
    {
      this.contract := contract;
      lang := Ru;
      address := None;
      ratings := map[];
      loading := false;
    }

    /** `loadRatings`: fill the table place by place; returns the reads made. */
    method LoadRatings(chain: Chain, places: seq<Place>) returns (calls: seq<ReadCall>)
      modifies this`ratings, this`loading
      ensures ratings == AverageTable(chain, places) && !loading
      ensures calls == AverageReads(places)
    {
      loading := true;
      var result: map<int, Numeric> := map[];
      calls := [];
      for i := 0 to |places|
        invariant result == AverageTable(chain, places[..i])
        invariant calls == AverageReads(places[..i])
      {
        var p := places[i];
        AverageStep(chain, places, i);
        result := result[p.id := FetchAverage(chain, p.id)];
        calls := calls + [AverageCall(p.id)];
      }
      assert places[..|places|] == places;
      ratings := result;
      loading := false;
    }

    /**
     * `ratePlace(placeId, rating)`: without an address, alert and stop; otherwise
     * run the submission, which reloads the averages only when the write went
     * through. Returns the steps taken.
     */
    method RatePlace(chain: Chain, wallet: Wallet, after: Chain, places: seq<Place>, nowMs: int, placeId: int, rating: int)
      returns (steps: seq<Step>)
      modifies this`ratings, this`loading
      ensures !Connected(address) ==> steps == [Alert(ConnectFirst(lang))]
      ensures Connected(address) ==> steps == SubmitSteps(contract, address.value, chain, wallet, places, nowMs, placeId, rating)
      ensures Connected(address) && SubmitOutcome(contract, address.value, chain, wallet, nowMs, placeId, rating) == Submitted
        ==> ratings == AverageTable(after, places) && !loading
      ensures !(Connected(address) && SubmitOutcome(contract, address.value, chain, wallet, nowMs, placeId, rating) == Submitted)
        ==> ratings == old(ratings) && loading == old(loading)
    {
      if !Connected(address) {
        steps := [Alert(ConnectFirst(lang))];
        return;
      }
      var rater := address.value;
      var deadline := Deadline(nowMs);
      var nonceCall := NonceCall(rater, placeId);
      var first := [NonceRead(nonceCall)];
      var nonce := chain(nonceCall);
      if nonce.Threw? {
        steps := first;
        return;
      }
      var typed := BuildRating(contract, rater, placeId, rating, nonce.value, deadline);
      var signed := wallet.sign(typed);
      if signed.SignFailed? {
        steps := first + [SignRequest(typed)];
        return;
      }
      var call := SubmitCall(rater, placeId, rating, deadline, signed.signature);
      if wallet.write(call).WriteFailed? {
        steps := first + [SignRequest(typed), SubmitWrite(call)];
        return;
      }
      var reloads := LoadRatings(after, places);
      assert forall i :: 0 <= i < |places| ==> ReloadSteps(places)[i] == AverageRead(reloads[i]);
      steps := first + [SignRequest(typed), SubmitWrite(call)] + ReloadSteps(places);
    }
  }
}
