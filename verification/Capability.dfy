/** Capabilities (aarch64, MCS build) and which of them stand for the same kernel object. */
module Capability {

  datatype Cap =
    | NullCap
    | UntypedCap(ptr: nat, blockSize: nat, freeIndex: nat, isDevice: bool)
    | EndpointCap(ptr: nat, badge: nat)
    | NotificationCap(ptr: nat, badge: nat)
    | ReplyCap(ptr: nat)
    | CNodeCap(ptr: nat, radix: nat, guardSize: nat, guard: nat)
    | ThreadCap(ptr: nat)
    | IrqControlCap
    | IrqHandlerCap(irq: nat)
    | ZombieCap(ptr: nat, number: nat)
    | DomainCap
    | SchedContextCap(ptr: nat, sizeBits: nat)
    | SchedControlCap(core: nat)
    | FrameCap(ptr: nat, size: nat, isDevice: bool, mappedAsid: nat)
    | PageTableCap(ptr: nat, isMapped: bool)
    | VSpaceCap(ptr: nat, isMapped: bool)
    | AsidControlCap
    | AsidPoolCap(ptr: nat)

  predicate IsArchCap(c: Cap) {
    c.FrameCap? || c.PageTableCap? || c.VSpaceCap? || c.AsidControlCap? || c.AsidPoolCap?
  }

  /** `same_object_as`, with the branches of `same_region_as` it can reach. */
  predicate SameObjectAs(c: Cap, d: Cap) {
    if c.UntypedCap? || (c.IrqControlCap? && d.IrqHandlerCap?) then false
    else if IsArchCap(c) && IsArchCap(d) then ArchSameObjectAs(c, d)
    else SameRegionAs(c, d)
  }

  predicate SameRegionAs(c: Cap, d: Cap)
    requires !c.UntypedCap? && !(IsArchCap(c) && IsArchCap(d))
  {
    match c
    case EndpointCap(p, _) => d.EndpointCap? && p == d.ptr
    case NotificationCap(p, _) => d.NotificationCap? && p == d.ptr
    case ThreadCap(p) => d.ThreadCap? && p == d.ptr
    case DomainCap => d.DomainCap?
    case CNodeCap(p, radix, _, _) => d.CNodeCap? && p == d.ptr && radix == d.radix
    case IrqControlCap => d.IrqControlCap? || d.IrqHandlerCap?
    case IrqHandlerCap(irq) => d.IrqHandlerCap? && irq == d.irq
    case SchedContextCap(p, bits) => d.SchedContextCap? && p == d.ptr && bits == d.sizeBits
    case SchedControlCap(_) => d.SchedControlCap?
    case ReplyCap(p) => d.ReplyCap? && p == d.ptr
    case _ => false
  }

  predicate ArchSameObjectAs(c: Cap, d: Cap)
    requires IsArchCap(c) && IsArchCap(d)
  {
    match c
    case FrameCap(p, size, dev, _) => d.FrameCap? && p == d.ptr && size == d.size && dev == d.isDevice
    case PageTableCap(p, _) => d.PageTableCap? && p == d.ptr
    case VSpaceCap(p, _) => d.VSpaceCap? && p == d.ptr
    case AsidControlCap => d.AsidControlCap?
    case AsidPoolCap(p) => d.AsidPoolCap? && p == d.ptr
  }

  // ----- what the comparison means -----

  /** The object a capability stands for, without rights, badges and bookkeeping: itself a
      capability, and `NullCap` for capabilities that stand for no object of their own. */
  function Object(c: Cap): Cap {
    match c
    case UntypedCap(_, _, _, _) => NullCap
    case ZombieCap(_, _) => NullCap
    case EndpointCap(p, _) => EndpointCap(p, 0)
    case NotificationCap(p, _) => NotificationCap(p, 0)
    case CNodeCap(p, radix, _, _) => CNodeCap(p, radix, 0, 0)
    case SchedControlCap(_) => SchedControlCap(0)
    case FrameCap(p, size, dev, _) => FrameCap(p, size, dev, 0)
    case PageTableCap(p, _) => PageTableCap(p, false)
    case VSpaceCap(p, _) => VSpaceCap(p, false)
    case _ => c
  }

  /** The comparison is equality of objects. */
  lemma SameObjectMeans(c: Cap, d: Cap)
    ensures SameObjectAs(c, d) <==> Object(c) != NullCap && Object(c) == Object(d)
  {
    match c {
      case _ =>
    }
  }

  /** So it is symmetric and transitive, although its code treats its arguments differently. */
  lemma SameObjectEquivalence(c: Cap, d: Cap, e: Cap)
    ensures SameObjectAs(c, d) <==> SameObjectAs(d, c)
    ensures SameObjectAs(c, d) && SameObjectAs(d, e) ==> SameObjectAs(c, e)
    ensures SameObjectAs(c, c) <==> Object(c) != NullCap
  {
    SameObjectMeans(c, d);
    SameObjectMeans(d, c);
    SameObjectMeans(d, e);
    SameObjectMeans(c, e);
    SameObjectMeans(c, c);
  }

  /** `is_cap_revocable`; its assertions are its precondition. */
  predicate IsCapRevocable(derived: Cap, src: Cap)
    requires derived.EndpointCap? ==> src.EndpointCap?
    requires derived.NotificationCap? ==> src.NotificationCap?
  {
    match derived
    case EndpointCap(_, badge) => badge != src.badge
    case NotificationCap(_, badge) => badge != src.badge
    case IrqHandlerCap(_) => src.IrqControlCap?
    case UntypedCap(_, _, _, _) => true
    case _ => false
  }
}
