/**
 * The parts of the OpenFHE library that the game backend touches, kept
 * uninterpreted: nothing here models lattice arithmetic, only the shape of
 * the values the game code stores and passes around.
 */
module OpenFhe {

  /** The feature switches a crypto context can have enabled. */
  datatype Feature = Pke | KeySwitch | LeveledShe | AdvancedShe | Multiparty

  /** How partial decryptions are protected in multiparty mode. */
  datatype MultipartyMode = NoiseFloodingMultiparty | FixedNoiseMultiparty

  /**
   * A crypto context. `handle` tells apart the contexts that successive
   * calls of the library's context generator hand back.
   */
  datatype CryptoContext = CryptoContext(
    handle: nat,
    plaintextModulus: nat,
    multipartyMode: MultipartyMode,
    enabled: set<Feature>)

  /** A public key; the library's key material is opaque. */
  datatype PublicKey = PublicKey(handle: nat)

  /** A key pair as returned by key generation, with the library's validity flag. */
  datatype KeyPair = KeyPair(publicKey: PublicKey, good: bool)

  /**
   * A ciphertext, as the term that built it: a ciphertext the library produced
   * (by encryption or deserialization) or the homomorphic sum of two others.
   * Every concrete ciphertext domain is an image of this free one.
   */
  datatype Ciphertext = Fresh(handle: nat) | Sum(left: Ciphertext, right: Ciphertext)

  /** Homomorphic addition, left uninterpreted. */
  function EvalAdd(a: Ciphertext, b: Ciphertext): Ciphertext
  {
    Sum(a, b)
  }
}
