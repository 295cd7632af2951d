// The VPSieNode reconciler: one object, fetched, handled in memory and persisted in two
// ordered writes, the object first and its status second
// (pkg/controller/vpsienode/controller.go:103-355).
module VPSieNodeController {
  import opened Options
  import opened VPSieNodes

  // The persisted object after a reconcile, and what the reconcile did outside it.
  datatype Outcome = Outcome(stored: Node, created: bool, gone: Option<Evidence>)

  predicate MetaChanged(a: Node, b: Node) {
    || a.spec.instanceID != b.spec.instanceID
    || a.spec.nodeName != b.spec.nodeName
    || a.spec.ipAddress != b.spec.ipAddress
    || a.creationRequested != b.creationRequested
  }

  function WriteObject(stored: Node, vn: Node, w: Write): Node {
    if w.Applied() then stored.(spec := vn.spec, creationRequested := vn.creationRequested,
                                hasFinalizer := vn.hasFinalizer)
    else stored
  }

  function WriteStatus(stored: Node, vn: Node, w: Write): Node {
    if w.Applied() then stored.(status := vn.status) else stored
  }

  function ReconcileLive(n: Node, io: IO): Outcome
    requires io.Valid()
  {
    if !n.hasFinalizer then
      Outcome(WriteObject(n, n.(hasFinalizer := true), io.update), false, None)
    else if n.status.phase == Unset then
      Outcome(WriteStatus(n, n.(status := n.status.(phase := Pending)), io.patch), false, None)
    else
      var h := Handle(n, io);
      if MetaChanged(n, h.node) && !io.update.Written? then
        Outcome(WriteObject(n, h.node, io.update), h.created, h.gone)
      else
        var updated := if MetaChanged(n, h.node) then WriteObject(n, h.node, io.update) else n;
        Outcome(WriteStatus(updated, h.node, io.patch), h.created, h.gone)
  }

  function DropFinalizer(stored: Node, io: IO): Node {
    WriteObject(stored, stored.(hasFinalizer := false), io.update)
  }

  function ReconcileDeleted(n: Node, io: IO): Outcome
    requires io.Valid()
  {
    if !n.hasFinalizer then Outcome(n, false, None)
    else if n.status.phase != Terminating && n.status.phase != Deleting then
      Outcome(WriteStatus(n, InPhase(n, Terminating, io.later), io.patch), false, None)
    else if n.status.deletedAt == None then
      var h := Handle(n, io);
      var stored := WriteStatus(n, h.node, io.patch);
      // A failed patch is passed over when the handler failed too.
      if io.patch.Conflict? || (io.patch.WriteFailed? && h.err == NoError) || h.node.status.deletedAt == None then
        Outcome(stored, h.created, h.gone)
      else
        Outcome(DropFinalizer(stored, io), h.created, h.gone)
    else
      Outcome(DropFinalizer(n, io), false, None)
  }

  function Reconcile(n: Node, io: IO): Outcome
    requires io.Valid()
  {
    if n.deletionRequested then ReconcileDeleted(n, io) else ReconcileLive(n, io)
  }

  // The delete calls a reconcile makes.
  function CallsOf(n: Node, io: IO): seq<DeleteCall>
    requires io.Valid()
  {
    if n.hasFinalizer && n.status.phase == Deleting && (n.deletionRequested ==> n.status.deletedAt == None)
    then DeleteCalls(n, io) else []
  }

  // The API server's copy of the object and the reconciler acting on it.
  class Server {
    var stored: Node

    constructor (n: Node)
      ensures stored == n
    {
      stored := n;
    }

    method Update(vn: VPSieNode, w: Write) returns (ok: bool)
      modifies this
      ensures stored == WriteObject(old(stored), vn.View(), w) && ok == w.Written?
    {
      if w.Applied() {
        stored := stored.(spec := vn.spec, creationRequested := vn.creationRequested, hasFinalizer := vn.hasFinalizer);
      }
      ok := w.Written?;
    }

    method PatchStatus(vn: VPSieNode, w: Write) returns (ok: bool)
      modifies this
      ensures stored == WriteStatus(old(stored), vn.View(), w) && ok == w.Written?
    {
      if w.Applied() {
        stored := stored.(status := vn.status);
      }
      ok := w.Written?;
    }

    method ReconcileNode(io: IO) returns (created: bool, gone: Option<Evidence>, calls: seq<DeleteCall>)
      requires io.Valid()
      modifies this
      ensures Outcome(stored, created, gone) == Reconcile(old(stored), io)
      ensures calls == CallsOf(old(stored), io)
    {
      hide DeleteCalls;
      created, gone, calls := false, None, [];
      var vn := new VPSieNode(stored);
      if vn.deletionRequested {
        gone, calls := ReconcileDelete(vn, io);
        return;
      }
      if !vn.hasFinalizer {
        vn.hasFinalizer := true;
        var _ := Update(vn, io.update);
        return;
      }
      if vn.status.phase == Unset {
        vn.status := vn.status.(phase := Pending);
        var _ := PatchStatus(vn, io.patch);
        return;
      }
      var originalVPSID, originalNodeName := vn.spec.instanceID, vn.spec.nodeName;
      var originalIPAddress, originalRequested := vn.spec.ipAddress, vn.creationRequested;
      var err;
      err, created, gone, calls := vn.HandlePhase(io);
      if vn.spec.instanceID != originalVPSID || vn.spec.nodeName != originalNodeName
         || vn.spec.ipAddress != originalIPAddress || vn.creationRequested != originalRequested {
        var ok := Update(vn, io.update);
        if !ok {
          return;
        }
      }
      var _ := PatchStatus(vn, io.patch);
    }

    method ReconcileDelete(vn: VPSieNode, io: IO) returns (gone: Option<Evidence>, calls: seq<DeleteCall>)
      requires io.Valid() && vn.View() == stored && vn.deletionRequested
      modifies this, vn
      ensures Outcome(stored, false, gone) == ReconcileDeleted(old(stored), io)
      ensures calls == CallsOf(old(stored), io)
    {
      hide DeleteCalls, DeleteVPS;
      gone, calls := None, [];
      if !vn.hasFinalizer {
        return;
      }
      if vn.status.phase != Terminating && vn.status.phase != Deleting {
        vn.SetPhaseTo(Terminating, io.later);
        var _ := PatchStatus(vn, io.patch);
        return;
      }
      if vn.status.deletedAt == None {
        var err, created;
        err, created, gone, calls := vn.HandlePhase(io);
        var ok := PatchStatus(vn, io.patch);
        if io.patch.Conflict? || (!ok && err == NoError) {
          return;
        }
        if vn.status.deletedAt == None {
          return;
        }
      }
      vn.hasFinalizer := false;
      var _ := Update(vn, io.update);
    }
  }
}
