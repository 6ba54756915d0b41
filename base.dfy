/**
 * The default module that feature modules embed (internal/module/base.go).
 * Go's context is reduced to two flags: whether Init derived a cancellable
 * context, and whether it has been cancelled.
 */
module Base {
  import opened Wrappers
  import opened Imaging
  import opened Events
  import R = Resources

  class BaseModule {
    var id: string
    var resources: R.Resources
    var hasCancel: bool   // Init stored a cancel function
    var cancelled: bool   // that cancel function has been called

    /** NewBaseModule: only the identifier is set. */
    constructor (id: string)
      ensures ID() == id
      ensures Resources() == R.NoResources
      ensures !hasCancel && !cancelled
    {
      this.id := id;
      resources := R.NoResources;
      hasCancel := false;
      cancelled := false;
    }

    function ID(): string
      reads this
    {
      id
    }

    function Resources(): R.Resources
      reads this
    {
      resources
    }

    /** Stores the grant and a fresh cancellable context; never fails. */
    method Init(res: R.Resources) returns (err: bool)
      modifies this
      ensures !err
      ensures Resources() == res && ID() == old(ID())
      ensures hasCancel && !cancelled
    {
      hasCancel, cancelled := true, false;
      resources := res;
      err := false;
    }

    /** Cancels the context if Init created one; never fails, even before Init. */
    method Stop() returns (err: bool)
      modifies this
      ensures !err
      ensures cancelled == (old(cancelled) || old(hasCancel))
      ensures hasCancel == old(hasCancel) && Resources() == old(Resources()) && ID() == old(ID())
    {
      if hasCancel {
        cancelled := true;
      }
      err := false;
    }

    /** No key updates (a nil map). */
    method RenderKeys() returns (keys: map<R.KeyId, Image>)
      ensures keys == map[]
    {
      keys := map[];
    }

    /** No strip update (a nil image). */
    method RenderStrip() returns (img: Option<Image>)
      ensures img.None?
    {
      img := None;
    }

    method HandleKey(id: R.KeyId, event: KeyEvent) returns (err: bool)
      ensures !err
    {
      err := false;
    }

    method HandleDial(id: R.DialId, event: DialEvent) returns (err: bool)
      ensures !err
    {
      err := false;
    }

    method HandleStripTouch(event: TouchStripEvent) returns (err: bool)
      ensures !err
    {
      err := false;
    }
  }

  /** A base module keeps its identifier through Init and Stop, and Init's grant is what Resources returns. */
  method LifecycleKeepsIdentity(id: string, res: R.Resources) returns (sameId: bool, sameRes: bool, stopErr: bool)
    ensures sameId && sameRes && !stopErr
  {
    var b := new BaseModule(id);
    var early := b.Stop();
    var e := b.Init(res);
    stopErr := b.Stop();
    stopErr := stopErr || early;
    sameId := b.ID() == id;
    sameRes := b.Resources() == res;
  }
}
