/** The two halves joined: what the relayer broadcasts for a sponsored operation is what the paymaster accepts. */
module RelayerSponsored {
  import opened Wrappers
  import opened Numbers
  import opened Schema
  import opened Packing
  import opened OnChain
  import opened Sponsorship
  import opened RelayerProtocol
  import opened RelayerTheorems

  /** What the chain makes of a broadcast of the sponsored operation, whatever account signature it carries. */
  ghost predicate ValidatesAs(keccak: Keccak, recover: Recover, cfg: SigningConfig, now: nat, dto: SponsorDto,
                              s: Sponsored, tx: Tx, signer: Address, sigFailed: bool)
  {
    && tx.entryPoint == cfg.entryPoint && StructIsRequest(dto, tx.userOp)
    && EntryPointUserOpHash(keccak, tx.userOp, cfg.entryPoint, cfg.chainId) == s.signed.userOpHash
    && ValidatePaymasterUserOp(keccak, recover, signer, tx.userOp, cfg.chainId, cfg.paymaster)
       == Ok(ValidationData(sigFailed, now + cfg.validSeconds, 0))
  }

  /**
   * In every run, every broadcast of an operation whose row `sponsor` wrote, replacements included, goes to the
   * configured EntryPoint with the struct that was asked for, which hashes to the row's userOpHash, and the
   * paymaster accepts it from 0 to now + validSeconds exactly when the backend's address is the current signer.
   */
  lemma BroadcastsValidate(relayer: Config, events: seq<Event>, i: Id, keccak: Keccak, signDigest: SignDigest,
                           recover: Recover, backend: Address, cfg: SigningConfig, now: nat, dto: SponsorDto,
                           initial: Address, history: seq<Rotation>)
    requires AtMostOnce(events) && i in Reached(relayer, events).sent
    requires SponsorRow(keccak, signDigest, cfg, now, dto).Ok?
    requires var s := Reached(relayer, events);
             s.sent[i].h in s.rows && s.rows[s.sent[i].h].op == SponsorRow(keccak, signDigest, cfg, now, dto).value.row
    requires forall d: Bytes32 :: |signDigest(d)| in {64, 65} && recover(d, signDigest(d)) == Some(backend)
    ensures ValidatesAs(keccak, recover, cfg, now, dto, SponsorRow(keccak, signDigest, cfg, now, dto).value,
                        Reached(relayer, events).sent[i].tx, SignerAfter(initial, history),
                        SignerAfter(initial, history) != backend)
  {
    hide Reached, Sponsorable, BuildPackedUserOp, ValidatePaymasterUserOp, EntryPointUserOpHash, Sign, ParseDto,
         SignerAfter, StructIsRequest;
    SponsorSucceedsIffSponsorable(keccak, signDigest, cfg, now, dto);
    var a, k, c := BroadcastProvenance(relayer, events, i);
    var signature := Reached(relayer, events).sent[i].tx.userOp.signature;
    SponsoredOpRebuilds(keccak, signDigest, cfg, now, dto, signature);
    ValidateDecidesBySigner(keccak, signDigest, recover, backend, cfg, now, dto, signature, initial, history);
  }
}
