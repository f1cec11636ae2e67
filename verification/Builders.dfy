/** Builder specs on the wire and in the custom resource, and the mappings between the two. */
module Builders {
  import opened Wrappers

  type int32 = x: int | -0x8000_0000 <= x < 0x8000_0000

  /** A nil and an empty label map are the same value here, as they are on the wire. */
  datatype BuilderSpec = BuilderSpec(templateRef: string, mode: string, replicas: int32,
                                     idleTimeoutSeconds: int32, labels: map<string, string>)
  datatype BuilderResource = BuilderResource(templateRef: Option<string>, mode: string, replicas: Option<int32>,
                                             idleTimeoutSeconds: Option<int32>, labels: map<string, string>)
  datatype BuilderStatus = BuilderStatus(endpoint: string, nodePort: int32, phase: string)

  const DEFAULT_REPLICAS: int32 := 1
  const DEFAULT_IDLE_TIMEOUT: int32 := 300

  function Read(cr: BuilderResource): BuilderSpec {
    BuilderSpec(
      if cr.templateRef.Some? then cr.templateRef.value else "",
      cr.mode,
      if cr.replicas.Some? then cr.replicas.value else DEFAULT_REPLICAS,
      if cr.idleTimeoutSeconds.Some? then cr.idleTimeoutSeconds.value else DEFAULT_IDLE_TIMEOUT,
      cr.labels)
  }

  function Write(p: BuilderSpec): BuilderResource {
    BuilderResource(
      if p.templateRef != "" then Some(p.templateRef) else None,
      p.mode,
      if p.replicas > 0 then Some(p.replicas) else None,
      if p.idleTimeoutSeconds > 0 then Some(p.idleTimeoutSeconds) else None,
      p.labels)
  }

  /** A request with its omitted numbers filled in. */
  function Defaulted(p: BuilderSpec): BuilderSpec {
    p.(replicas := if p.replicas > 0 then p.replicas else 1,
       idleTimeoutSeconds := if p.idleTimeoutSeconds > 0 then p.idleTimeoutSeconds else 300)
  }

  predicate UnsetOrPositive(v: Option<int32>) {
    v.Some? ==> v.value > 0
  }

  predicate Settled(cr: BuilderResource) {
    UnsetOrPositive(cr.replicas) && UnsetOrPositive(cr.idleTimeoutSeconds)
  }

  /** Reading back a written spec gives its defaulted form, and whatever is written is settled. */
  lemma ReadWrite(p: BuilderSpec)
    ensures Read(Write(p)) == Defaulted(p) && Defaulted(Defaulted(p)) == Defaulted(p)
    ensures Settled(Write(p))
  {
  }

  /** Writing back what was read is invisible exactly for settled resources. */
  lemma ReadUpdateIsNoOpIffSettled(cr: BuilderResource)
    ensures Read(Write(Read(cr))) == Read(cr) <==> Settled(cr)
  {
    ReadWrite(Read(cr));
  }

  /** It leaves the stored resource itself alone exactly when nothing was left to a default. */
  lemma ReadUpdateKeepsStoredForm(cr: BuilderResource)
    ensures Write(Read(cr)) == cr <==>
            cr.templateRef != Some("") && cr.replicas.Some? && cr.idleTimeoutSeconds.Some? && Settled(cr)
  {
  }
}
