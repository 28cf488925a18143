/** The durable register behind every persistence callback: compare-and-swap under a fencing token. */
module CasRegisters {
  import opened Common

  datatype Register<T> = Register(fence: nat, durable: Option<T>)

  /** What storage must hold for a write to land; a snapshot's revision and fingerprint identify it exactly. */
  datatype Expectation<T> = Absent | Prior(image: T)

  /** What becomes of one write: it lands and says so, lands but reports failure, or never reaches storage. */
  datatype Fault = Healthy | CommitsButFails | FailsBefore

  /** A write on its way to storage. */
  datatype Sending<T> = Sending(token: nat, expected: Expectation<T>, proposed: T)

  function Expected<T>(e: Expectation<T>): Option<T> {
    match e
    case Absent => None
    case Prior(i) => Some(i)
  }

  /** The storage contract: current fencing token, and either the expected state or already the proposed one. */
  function Cas<T(==)>(r: Register<T>, token: nat, expected: Expectation<T>, proposed: T): Option<Register<T>> {
    if token != r.fence then None
    else if r.durable == Some(proposed) then Some(r)
    else if r.durable == Expected(expected) then Some(r.(durable := Some(proposed)))
    else None
  }

  function Arrived<T(==)>(r: Register<T>, w: Sending<T>): Register<T> {
    var landed := Cas(r, w.token, w.expected, w.proposed);
    if landed.Some? then landed.value else r
  }

  /** The register as an object, behind a persistence callback. */
  class Storage<T(==)> {
    var fence: nat
    var durable: Option<T>
    /** Every write ever sent: one may land, or land again, at any later time. */
    var sent: set<Sending<T>>

    constructor()
      ensures View() == Register(0, None) && sent == {}
    {
      fence, durable, sent := 0, None, {};
    }

    function View(): Register<T>
      reads this
    {
      Register(fence, durable)
    }

    /** A write sent some time ago arrives. */
    method Arrive(stray: Option<Sending<T>>)
      modifies this`durable
      ensures View() == if stray.None? || stray.value !in sent then old(View())
                        else Arrived(old(View()), stray.value)
    {
      if stray.Some? && stray.value in sent {
        var w := stray.value;
        if w.token == fence && durable == Expected(w.expected) {
          durable := Some(w.proposed);
        }
      }
    }

    /** Another owner takes the lease over and leaves storage as it likes. */
    method Overtake(takeover: Option<Register<T>>)
      modifies this`fence, this`durable
      ensures View() == if takeover.Some? && old(fence) < takeover.value.fence then takeover.value else old(View())
    {
      if takeover.Some? && fence < takeover.value.fence {
        fence, durable := takeover.value.fence, takeover.value.durable;
      }
    }

    /** Write `proposed` if storage is as expected, then report what the environment says. */
    method Persist(token: nat, expected: Expectation<T>, proposed: T, fault: Fault) returns (ok: bool)
      modifies this
      ensures var landed := Cas(old(View()), token, expected, proposed);
              && View() == (if landed.None? || fault.FailsBefore? then old(View()) else landed.value)
              && ok == (landed.Some? && fault.Healthy?)
      ensures sent == old(sent) + {Sending(token, expected, proposed)}
    {
      sent := sent + {Sending(token, expected, proposed)};
      if token != fence || fault.FailsBefore? || !(durable == Some(proposed) || durable == Expected(expected)) {
        return false;
      }
      durable := Some(proposed);
      return fault.Healthy?;
    }
  }
}
