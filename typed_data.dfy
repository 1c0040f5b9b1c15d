/**
 * The EIP-712 typed message the web page asks the wallet to sign (pages/web.tsx):
 * the domain that binds the signature to this application, contract and chain,
 * the `Rating` schema, and the message. Hashing and signing are not modelled; what
 * is modelled is what they are computed from: the type strings of EIP-712's
 * `encodeType` and the member values in schema order, as `encodeData` takes them.
 */
module TypedData {
  import opened JsValues
  import opened Contract

  const DomainName: string := "BarcelonaRatings"
  const DomainVersion: string := "1"
  /** Base mainnet. */
  const ChainId: int := 8453

  datatype Domain = Domain(name: string, version: string, chainId: int, verifyingContract: Address)

  /** One member of a struct type: its name and its Solidity type. */
  datatype Field = Field(name: string, kind: string)

  datatype TypedMessage = TypedMessage(domain: Domain, types: seq<Field>, primaryType: string, message: map<string, Arg>)

  /** The members of `EIP712Domain` for a domain that sets all four fields, in the order EIP-712 fixes. */
  const DomainFields: seq<Field> :=
    [Field("name", "string"), Field("version", "string"), Field("chainId", "uint256"), Field("verifyingContract", "address")]

  /** The `Rating` struct, in the order the contract hashes it. */
  const RatingFields: seq<Field> :=
    [Field("rater", "address"), Field("placeId", "uint256"), Field("rating", "uint8"),
     Field("nonce", "uint256"), Field("deadline", "uint256")]

  function RatingDomain(contract: Address): Domain {
    Domain(DomainName, DomainVersion, ChainId, contract)
  }

  /** `{ rater, placeId, rating, nonce, deadline }`. */
  function RatingMessage(rater: Address, placeId: int, rating: int, nonce: JsValue, deadline: int): map<string, Arg> {
    map["rater" := Addr(rater), "placeId" := Uint(placeId), "rating" := Uint(rating),
        "nonce" := Value(nonce), "deadline" := Uint(deadline)]
  }

  /** The members' values in schema order, as `encodeData` consumes them. */
  function StructValues(fields: seq<Field>, message: map<string, Arg>): (r: seq<Arg>)
    requires forall i :: 0 <= i < |fields| ==> fields[i].name in message
    ensures |r| == |fields|
    ensures forall i :: 0 <= i < |fields| ==> r[i] == message[fields[i].name]
  {
    if fields == [] then [] else [message[fields[0].name]] + StructValues(fields[1..], message)
  }

  /** The typed data handed to `signTypedData`, primary type `Rating`. */
  function BuildRating(contract: Address, rater: Address, placeId: int, rating: int, nonce: JsValue, deadline: int): (t: TypedMessage)
    ensures t.domain == Domain("BarcelonaRatings", "1", 8453, contract)
    ensures t.primaryType == "Rating" && t.types == RatingFields
    ensures t.message.Keys == {"rater", "placeId", "rating", "nonce", "deadline"}
    ensures StructValues(t.types, t.message) == [Addr(rater), Uint(placeId), Uint(rating), Value(nonce), Uint(deadline)]
  {
    var m := RatingMessage(rater, placeId, rating, nonce, deadline);
    var v := StructValues(RatingFields, m);
    assert v[0] == Addr(rater) && v[1] == Uint(placeId) && v[2] == Uint(rating);
    assert v[3] == Value(nonce) && v[4] == Uint(deadline);
    TypedMessage(RatingDomain(contract), RatingFields, "Rating", m)
  }

  /** One member of a type string: `type name`. */
  function Member(x: Field): string {
    x.kind + " " + x.name
  }

  /** `type name` members joined by commas. */
  function Members(fields: seq<Field>): string {
    if fields == [] then ""
    else if |fields| == 1 then Member(fields[0])
    else Member(fields[0]) + "," + Members(fields[1..])
  }

  /** EIP-712 `encodeType` of a struct without struct-typed members: `Name(type1 name1,type2 name2,..)`. */
  function EncodeType(primary: string, fields: seq<Field>): string {
    primary + "(" + Members(fields) + ")"
  }

  /** Joining a non-empty list after a first member puts one comma between them. */
  lemma MembersCons(x: Field, rest: seq<Field>)
    requires rest != []
    ensures Members([x] + rest) == Member(x) + "," + Members(rest)
  {
    assert ([x] + rest)[1..] == rest;
  }

  /**
   * The `Rating` type string the signature commits to,
   * "Rating(address rater,uint256 placeId,uint8 rating,uint256 nonce,uint256 deadline)",
   * written piece by piece.
   */
  lemma RatingTypeString()
    ensures EncodeType("Rating", RatingFields)
         == "Rating" + "(" + (("address" + " " + "rater") + "," + (("uint256" + " " + "placeId") + ","
            + (("uint8" + " " + "rating") + "," + (("uint256" + " " + "nonce") + "," + ("uint256" + " " + "deadline")))))
            + ")"
  {
    var f := RatingFields;
    assert f == [f[0]] + ([f[1]] + ([f[2]] + ([f[3]] + [f[4]])));
    MembersCons(f[3], [f[4]]);
    MembersCons(f[2], [f[3]] + [f[4]]);
    MembersCons(f[1], [f[2]] + ([f[3]] + [f[4]]));
    MembersCons(f[0], [f[1]] + ([f[2]] + ([f[3]] + [f[4]])));
  }

  /**
   * The domain type string for a domain with all four fields set,
   * "EIP712Domain(string name,string version,uint256 chainId,address verifyingContract)",
   * written piece by piece.
   */
  lemma DomainTypeString()
    ensures EncodeType("EIP712Domain", DomainFields)
         == "EIP712Domain" + "(" + (("string" + " " + "name") + "," + (("string" + " " + "version") + ","
            + (("uint256" + " " + "chainId") + "," + ("address" + " " + "verifyingContract")))) + ")"
  {
    var f := DomainFields;
    assert f == [f[0]] + ([f[1]] + ([f[2]] + [f[3]]));
    MembersCons(f[2], [f[3]]);
    MembersCons(f[1], [f[2]] + [f[3]]);
    MembersCons(f[0], [f[1]] + ([f[2]] + [f[3]]));
  }
}
