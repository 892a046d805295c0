/** The three closed enumerations of the Mifare Classic poller that the
    dictionary-attack screen displays. Only the types are modelled: the
    poller's operations are declarations without bodies in its header. */
module MfClassicPoller {

  /** Position of the nested attack in its multi-step protocol. */
  datatype NestedPhase =
    | None              // no nested attack has taken place yet
    | AnalyzePrng       // classify the tag's nonce generator
    | DictAttack        // search keys matching the collected nonces
    | DictAttackVerify  // verify candidate keys by authenticating
    | DictAttackResume  // resume from the last tested key
    | Calibrate         // prepare plaintext nonce recovery (weak PRNG)
    | Recalibrate       // next static encrypted nonce (backdoor attack)
    | CollectNtEnc      // log nonces from nested authentication
    | Finished          // the nested attack has finished

  /** The tag's pseudorandom nonce generator. */
  datatype PrngType =
    | Unknown  // tag not yet tested
    | NoTag    // no tag detected during the test
    | Weak     // predictable: standard nested attack
    | Hard     // statistical: hardnested attack

  /** The authentication backdoor the tag answers to. */
  datatype Backdoor =
    | Unknown  // tag not yet tested
    | None     // no backdoor observed
    | Auth1    // answers the v1 backdoor authentication
    | Auth2    // answers the v2 backdoor (sometimes static encrypted)
    | Auth3    // answers the v3 backdoor (static encrypted nonce)

  /** A backdoor has been found: the tag was tested and answered one. */
  predicate BackdoorPresent(b: Backdoor)
  {
    b != Backdoor.None && b != Backdoor.Unknown
  }
}
