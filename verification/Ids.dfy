/** Addresses and tags the decoder recognises. */
module Ids {
  import opened Bytes
  import opened Pda

  const SYSTEM_PROGRAM: Key :=
    [0, 0, 0, 0, 0, 0, 0, 0, 0, 0, 0, 0, 0, 0, 0, 0, 0, 0, 0, 0, 0, 0, 0, 0, 0, 0, 0, 0, 0, 0, 0, 0]

  const TOKEN_PROGRAM: Key :=
    [6, 221, 246, 225, 215, 101, 161, 147, 217, 203, 225, 70, 206, 235, 121, 172,
     28, 180, 133, 237, 95, 91, 55, 145, 58, 140, 245, 133, 126, 255, 0, 169]

  const TOKEN_2022_PROGRAM: Key :=
    [6, 221, 246, 225, 238, 117, 143, 222, 24, 66, 93, 188, 228, 108, 205, 218,
     182, 26, 252, 77, 131, 185, 13, 39, 254, 189, 249, 40, 216, 161, 139, 252]

  const ATA_PROGRAM: Key :=
    [140, 151, 37, 143, 78, 36, 137, 241, 187, 61, 16, 41, 20, 142, 13, 131,
     11, 90, 19, 153, 218, 255, 16, 132, 4, 142, 123, 216, 219, 233, 248, 89]

  const COMPUTE_BUDGET_PROGRAM: Key :=
    [3, 6, 70, 111, 229, 33, 23, 50, 255, 236, 173, 186, 114, 195, 155, 231,
     188, 140, 229, 187, 197, 247, 18, 107, 44, 67, 155, 58, 64, 0, 0, 0]

  const MEMO_PROGRAM: Key :=
    [5, 74, 83, 90, 153, 41, 33, 6, 77, 36, 232, 113, 96, 218, 56, 124,
     124, 53, 181, 221, 188, 146, 187, 129, 228, 31, 168, 64, 65, 5, 68, 141]

  const SYSTEM_IX_TAG_TRANSFER: nat := 2
  const SYSTEM_IX_TAG_NONCE_ADVANCE: nat := 4
  const SPL_IX_TAG_TRANSFER_CHECKED: nat := 12
  const COMPUTE_BUDGET_TAG_SET_UNIT_LIMIT: nat := 2
  const COMPUTE_BUDGET_TAG_SET_UNIT_PRICE: nat := 3

  const CREATE_TRANSACTION_DISCRIMINATOR: seq<Byte> := [227, 193, 53, 239, 55, 126, 112, 105]
  const APPROVE_TRANSACTION_DISCRIMINATOR: seq<Byte> := [224, 39, 88, 181, 36, 59, 155, 122]
  const EXECUTE_TRANSACTION_DISCRIMINATOR: seq<Byte> := [231, 173, 49, 91, 235, 24, 68, 19]
  const CLOSE_TRANSACTION_DISCRIMINATOR: seq<Byte> := [97, 46, 152, 170, 42, 215, 192, 218]
  const VAULT_TRANSACTION_ACCOUNT_DISCRIMINATOR: seq<Byte> := [168, 250, 162, 100, 81, 14, 162, 207]

  predicate IsTokenProgram(k: Key) { k == TOKEN_PROGRAM || k == TOKEN_2022_PROGRAM }

  function DeriveAta(env: Env, owner: Key, mint: Key, tokenProgram: Key): Key {
    env.find(owner + tokenProgram + mint, ATA_PROGRAM).0
  }

  // A string handed to the SDK as an address: the base58 form of a key, or not one.
  datatype Address = Base58(key: Key) | NotAKey

  // A string handed to the SDK as an amount: a plain decimal number, or not one.
  datatype Amount = Number(n: nat) | NotANumber
}
