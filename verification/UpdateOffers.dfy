/** What an update check may offer: the newest of the manifests it read, when that is
    worth offering at all. */
module UpdateOffers {
  import opened Wrappers

  datatype Channel = Stable | Nightly

  datatype Manifest = Manifest(version: string, build: int, sha256: string, channel: Channel)

  /** The application that is running. */
  datatype Running = Running(build: int, nightly: bool)

  predicate IsNewerBuild(manifest: Manifest, running: Running) {
    manifest.build > running.build
  }

  predicate ShouldOffer(manifest: Manifest, running: Running, channel: Channel, automatic: bool) {
    if IsNewerBuild(manifest, running) then true
    else if automatic || manifest.channel != Stable || !running.nightly then false
    else channel == Stable || manifest.build >= running.build
  }

  function BestCandidate(primary: Option<Manifest>, stable: Option<Manifest>): Option<Manifest> {
    if primary.None? then stable
    else if stable.None? then primary
    else if stable.value.build >= primary.value.build then stable
    else primary
  }

  predicate Offers(candidate: Option<Manifest>, running: Running, channel: Channel, automatic: bool) {
    candidate.Some? && ShouldOffer(candidate.value, running, channel, automatic)
  }

  /** A Nightly check that keeps only the newest manifest keeps an offer whenever either
      leg brought one, and none that is older than another it could have made. */
  lemma BestCandidateLosesNothing(
    primary: Option<Manifest>, stable: Option<Manifest>, running: Running, automatic: bool)
    requires primary.Some? ==> primary.value.channel == Nightly
    requires stable.Some? ==> stable.value.channel == Stable
    ensures var best := BestCandidate(primary, stable);
            && (Offers(best, running, Nightly, automatic) <==>
                  Offers(primary, running, Nightly, automatic) || Offers(stable, running, Nightly, automatic))
            && (best.None? <==> primary.None? && stable.None?)
            && (forall other: Manifest :: Some(other) == primary || Some(other) == stable ==>
                  best.value.build >= other.build)
  {
  }

  /** The Stable channel reads one feed and never makes this choice. If it did, it would
      lose an offer exactly when a manual switch takes a Stable Release that a newer
      Nightly manifest, itself no newer than the Nightly Build running, would hide. */
  lemma StableChannelReadsItsOwnFeedOnly(primary: Manifest, stable: Manifest, running: Running, automatic: bool)
    requires primary.channel == Nightly && stable.channel == Stable
    ensures Offers(Some(stable), running, Stable, automatic)
            && !Offers(BestCandidate(Some(primary), Some(stable)), running, Stable, automatic)
       <==> !automatic && running.nightly && stable.build < primary.build <= running.build
  {
  }
}
