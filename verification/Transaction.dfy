/**
 Elements transactions, as far as the swap server builds and reads them: explicit or
 blinded outputs, segwit witnesses, and the validity of one input.

 Hashes, signatures and the sighash are a `Crypto` value; `Ideal` states what the proofs
 assume of it. The sighash reads the transaction without its witnesses.
 */
module Transaction {
  import opened Types
  import opened Interpreter

  type Asset = bytes
  type Txid = bytes

  const SIGHASH_ALL: byte := 0x01

  datatype OutPoint = OutPoint(txid: Txid, vout: u32)
  datatype TxIn = TxIn(prev: OutPoint, sequence: u32, scriptWitness: seq<bytes>)

  /** A fee output is explicit with an empty script. */
  datatype TxOut = Explicit(asset: Asset, value: u64, script: bytes) | Blinded(script: bytes)

  datatype Tx = Tx(version: u32, lockTime: u32, inputs: seq<TxIn>, outputs: seq<TxOut>)

  datatype Crypto = Crypto(
    sha256: bytes -> bytes,
    hash160: bytes -> bytes,
    txid: Tx -> Txid,
    sighash: (Tx, nat, bytes, u64, byte) -> bytes,
    sign: (bytes, bytes) -> bytes,
    verify: (bytes, bytes, bytes) -> bool,
    pubkey: bytes -> bytes)

  /** SHA-256 has no collisions, a key's own signatures verify, and encodings have their lengths. */
  ghost predicate Ideal(c: Crypto) {
    && (forall a: bytes, b: bytes :: c.sha256(a) == c.sha256(b) ==> a == b)
    && (forall k: bytes, m: bytes :: c.verify(c.pubkey(k), m, c.sign(k, m)))
    && (forall k: bytes, m: bytes :: |c.sign(k, m)| <= 72)
    && (forall k: bytes :: |c.pubkey(k)| == 33)
    && (forall k: bytes :: |c.hash160(k)| == 20)
  }

  function OutScript(o: TxOut): bytes {
    o.script
  }

  function Amount(o: TxOut): u64 {
    if o.Explicit? then o.value else 0
  }

  /** The transaction its txid and sighash are computed from. */
  function Strip(tx: Tx): (r: Tx)
    ensures |r.inputs| == |tx.inputs|
    ensures forall i :: 0 <= i < |tx.inputs| ==> r.inputs[i] == tx.inputs[i].(scriptWitness := [])
  {
    tx.(inputs := seq(|tx.inputs|, i requires 0 <= i < |tx.inputs| => tx.inputs[i].(scriptWitness := [])))
  }

  function TxidOf(c: Crypto, tx: Tx): Txid {
    c.txid(Strip(tx))
  }

  /** A stack signature is the signature followed by its sighash type. */
  predicate CheckSig(c: Crypto, tx: Tx, i: nat, script: bytes, value: u64, sig: bytes, key: bytes) {
    && sig != []
    && var last := |sig| - 1;
       c.verify(key, c.sighash(Strip(tx), i, script, value, sig[last]), sig[..last])
  }

  function ScriptEnvOf(c: Crypto, tx: Tx, i: nat, script: bytes, value: u64): ScriptEnv
    requires i < |tx.inputs|
  {
    ScriptEnv(c.sha256, c.hash160,
              (sig: bytes, key: bytes) => CheckSig(c, tx, i, script, value, sig, key),
              tx.lockTime, tx.inputs[i].sequence)
  }

  function P2wshScript(c: Crypto, script: bytes): bytes {
    [0x00, 0x20] + c.sha256(script)
  }

  predicate IsScriptHashProgram(script: bytes) {
    |script| >= 2 && script[0] == 0x00 && script[1] == 0x20
  }

  function P2wpkhScript(keyHash: bytes): bytes {
    [0x00, 0x14] + keyHash
  }

  /** `pubkey_hash160_from_p2wpkh_script`. */
  function KeyHashOfScript(script: bytes): (r: Result<Hash20>)
    ensures r.Ok? <==> exists h: Hash20 :: script == P2wpkhScript(h)
    ensures forall h: Hash20 :: script == P2wpkhScript(h) ==> r == Ok(h)
  {
    if |script| == 22 && script[0] == 0x00 && script[1] == 0x14 then
      assert script == P2wpkhScript(script[2..22]);
      assert forall h: Hash20 :: script == P2wpkhScript(h) ==> script[2..22] == h;
      Ok(script[2..22])
    else Err
  }

  /**
   Input `i` of `tx` may spend `out`. Only script-hash programs are interpreted; the
   witness ends with the script itself. Every other spend is allowed.
   */
  predicate InputAccepted(c: Crypto, tx: Tx, i: nat, out: TxOut)
    requires i < |tx.inputs|
  {
    IsScriptHashProgram(OutScript(out)) ==>
      var w := tx.inputs[i].scriptWitness;
      && w != []
      && var script := w[|w| - 1];
         && OutScript(out) == P2wshScript(c, script)
         && Accepts(ScriptEnvOf(c, tx, i, script, Amount(out)), script, w[..|w| - 1])
  }

  /** The assumptions hold of some functions, so no theorem that uses them is empty. */
  lemma IdealCryptoExists() returns (c: Crypto)
    ensures Ideal(c)
    ensures exists k: bytes, m: bytes, s: bytes :: !c.verify(c.pubkey(k), m, s)
  {
    var keyLength := seq(33, _ => 0 as byte);
    c := Crypto(
      (b: bytes) => b,
      (b: bytes) => seq(20, _ => 0),
      (t: Tx) => [],
      (t: Tx, i: nat, s: bytes, v: u64, ty: byte) => [ty],
      (k: bytes, m: bytes) => [|m| % 256],
      (k: bytes, m: bytes, s: bytes) => s == [|m| % 256],
      (k: bytes) => keyLength);
    assert !c.verify(c.pubkey([]), [], []);
  }
}
