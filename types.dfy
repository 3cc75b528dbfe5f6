/** Value types shared by the leaf-metadata validator and the test-harness
    helpers: machine integers, keys, the metadata record, and the program's
    error codes. */
module Types {

  /** Unsigned machine integers of the widths the program uses. */
  type u8 = x: int | 0 <= x < 0x100
  type u16 = x: int | 0 <= x < 0x1_0000
  type u32 = x: int | 0 <= x < 0x1_0000_0000
  type u64 = x: int | 0 <= x < 0x1_0000_0000_0000_0000

  const U8_MAX: int := 0xff
  const U32_LIMIT: int := 0x1_0000_0000

  /** A 32-byte public key. The validator only compares keys for equality;
      the creator-hash preimage uses their bytes. */
  type Pubkey = s: seq<u8> | |s| == 32 witness seq(32, _ => 0)

  /** A 32-byte digest. */
  type Hash = s: seq<u8> | |s| == 32 witness seq(32, _ => 0)

  datatype Option<T> = None | Some(value: T) {
    predicate IsFailure() { None? }

    function PropagateFailure<U>(): Option<U>
      requires None?
    {
      None
    }

    function Extract(): T
      requires Some?
    {
      value
    }
  }

  datatype Creator = Creator(address: Pubkey, verified: bool, share: u8)

  datatype Collection = Collection(verified: bool, key: Pubkey)

  datatype UseMethod = Burn | Multiple | Single

  datatype Uses = Uses(useMethod: UseMethod, remaining: u64, total: u64)

  datatype TokenStandard = NonFungible | FungibleAsset | Fungible | NonFungibleEdition

  datatype TokenProgramVersion = Original | Token2022

  /** The descriptive record of a compressed asset. `name`, `symbol` and
      `uri` are UTF-8 byte strings, so their length is a byte count. */
  datatype MetadataArgs = MetadataArgs(
    name: seq<u8>,
    symbol: seq<u8>,
    uri: seq<u8>,
    sellerFeeBasisPoints: u16,
    primarySaleHappened: bool,
    isMutable: bool,
    editionNonce: Option<u8>,
    tokenStandard: Option<TokenStandard>,
    collection: Option<Collection>,
    uses: Option<Uses>,
    tokenProgramVersion: TokenProgramVersion,
    creators: seq<Creator>)

  /** Field caps of the Token Metadata program (its `state` module). */
  const MAX_NAME_LENGTH: nat := 32
  const MAX_SYMBOL_LENGTH: nat := 10
  const MAX_URI_LENGTH: nat := 200
  const MAX_CREATOR_LIMIT: nat := 5

  /** The error codes the metadata-update validator can return. */
  datatype BubblegumError =
    | DataIsImmutable
    | CannotUpdateVerifiedCollection
    | PrimarySaleCanOnlyBeFlippedToTrue
    | IsMutableCanOnlyBeFlippedToFalse
    | MetadataNameTooLong
    | MetadataSymbolTooLong
    | MetadataUriTooLong
    | MetadataBasisPointsTooHigh
    | CreatorsTooLong
    | NoCreatorsPresent
    | DuplicateCreatorAddress
    | NumericalOverflowError
    | CannotVerifyAnotherCreator
    | CannotUnverifyAnotherCreator
    | CreatorShareTotalMustBe100
    | CollectionCannotBeVerifiedInThisInstruction
    | InvalidUseMethod
    | CannotChangeUseMethodAfterFirstUse
    | CannotChangeUsesAfterFirstUse

  /** `Result<()>`: success, or the first error found. */
  datatype Outcome = Pass | Fail(error: BubblegumError)

  /** `Result<T>` for a value-carrying step. */
  datatype Result<T> = Ok(value: T) | Err(error: BubblegumError)
}
