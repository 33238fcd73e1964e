/** Fixed-size values of the crypto layer: public keys, signatures, request
    ids, random nonces and hash results are byte strings of a fixed length. */
module Identity {
  import opened MachineInts

  const PUBLIC_KEY_LEN: nat := 32
  const SIGNATURE_LEN: nat := 64
  const UID_LEN: nat := 16
  const RAND_VALUE_LEN: nat := 16
  const HASH_RESULT_LEN: nat := 32

  type PublicKey = s: seq<byte> | |s| == PUBLIC_KEY_LEN witness seq(PUBLIC_KEY_LEN, _ => 0 as byte)
  type Signature = s: seq<byte> | |s| == SIGNATURE_LEN witness seq(SIGNATURE_LEN, _ => 0 as byte)
  type Uid = s: seq<byte> | |s| == UID_LEN witness seq(UID_LEN, _ => 0 as byte)
  type RandValue = s: seq<byte> | |s| == RAND_VALUE_LEN witness seq(RAND_VALUE_LEN, _ => 0 as byte)
  /** Output of `sha_512_256`. */
  type HashResult = s: seq<byte> | |s| == HASH_RESULT_LEN witness seq(HASH_RESULT_LEN, _ => 0 as byte)
}
