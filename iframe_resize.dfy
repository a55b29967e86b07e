/**
  IframeResizer: reports the document's height to the embedding page.

  The browser around the object is modelled explicitly: `timers` is the
  window's table of pending setTimeout callbacks (every one of them calls
  sendHeight), `nextTimerId` the handle the next setTimeout returns (always
  positive, so a stored handle is truthy), `resizeListeners` the number of
  resize listeners registered on the window, `connectedObservers` the number
  of MutationObservers still watching the body, and `posts` the log of every
  postMessage that sendHeight attempted. The measured scrollHeight is a
  parameter of sendHeight, and whether the parent accepts the message is
  another.
 */
module IframeResize {
  import opened Wrappers

  /** The message type tag the host page listens for. */
  const MessageType: string := "resize-calculator"

  datatype ResizeMessage = ResizeMessage(kind: string, height: nat)

  /** One postMessage attempt and whether the parent accepted it. */
  datatype Post = Post(message: ResizeMessage, delivered: bool)

  const SettleDelay: nat := 100     // ms before the first report, set by init
  const ResizeDebounce: nat := 150  // ms of quiet after a window resize
  const MutationDebounce: nat := 50 // ms of quiet after a DOM mutation

  /** Which code armed a timer: init's one-off settle timer, or a debounce stored in resizeTimeout. */
  datatype TimerSource = Settle | Debounce

  datatype Timer = Timer(delay: nat, source: TimerSource)

  /** No two consecutive attempted posts carry the same height. */
  ghost predicate NoRepeatedHeights(posts: seq<Post>) {
    forall i :: 0 < i < |posts| ==> posts[i - 1].message.height != posts[i].message.height
  }

  class IframeResizer {
    var lastHeight: nat
    var observer: bool                // `this.observer !== null`
    var resizeTimeout: Option<nat>    // the stored timer handle
    // the browser around the object
    var timers: map<nat, Timer>
    var nextTimerId: nat
    var resizeListeners: nat
    var connectedObservers: nat
    var posts: seq<Post>

    /**
      The object invariant: handles are issued from 1 upwards; the only debounce
      timer that can be pending is the one whose handle resizeTimeout holds;
      the field observer stands for a connected observer; and the post log
      records exactly the heights reported so far, each a change.
     */
    ghost predicate Valid()
      reads this
    {
      && nextTimerId >= 1
      && (forall id :: id in timers ==> 1 <= id < nextTimerId)
      && (resizeTimeout.Some? ==> 1 <= resizeTimeout.value < nextTimerId)
      && (forall id :: id in timers && timers[id].source == Debounce ==> resizeTimeout == Some(id))
      && (observer ==> connectedObservers >= 1)
      && (forall i :: 0 <= i < |posts| ==> posts[i].message.kind == MessageType)
      && NoRepeatedHeights(posts)
      && (posts == [] ==> lastHeight == 0)
      && (posts != [] ==> posts[|posts| - 1].message.height == lastHeight && posts[0].message.height != 0)
    }

    /** Handles of the pending debounce timers. */
    ghost function PendingDebounce(): set<nat>
      reads this
    {
      set id | id in timers && timers[id].source == Debounce
    }

    /** A fresh resizer: lastHeight 0, no observer, no timeout, nothing registered. */
    constructor ()
      ensures Valid()
      ensures lastHeight == 0 && !observer && resizeTimeout == None
      ensures timers == map[] && nextTimerId == 1 && resizeListeners == 0 && connectedObservers == 0 && posts == []
    {
      lastHeight := 0;
      observer := false;
      resizeTimeout := None;
      timers := map[];
      nextTimerId := 1;
      resizeListeners := 0;
      connectedObservers := 0;
      posts := [];
    }

    /**
      init(): in a top-level window (`topLevel`, i.e. window.parent === window)
      nothing happens. In a frame: a settle timer is armed that is not stored in
      resizeTimeout, a resize listener is added and a mutation observer is set up.
     */
    method Init(topLevel: bool)
      requires Valid()
      modifies this
      ensures Valid()
      ensures topLevel ==> (timers == old(timers) && nextTimerId == old(nextTimerId)
                            && resizeListeners == old(resizeListeners)
                            && connectedObservers == old(connectedObservers) && observer == old(observer))
      ensures !topLevel ==> (timers == old(timers)[old(nextTimerId) := Timer(SettleDelay, Settle)]
                             && nextTimerId == old(nextTimerId) + 1
                             && resizeListeners == old(resizeListeners) + 1
                             && observer && connectedObservers == old(connectedObservers) + 1)
      ensures lastHeight == old(lastHeight) && resizeTimeout == old(resizeTimeout) && posts == old(posts)
    {
      if topLevel {
        return;
      }
      timers := timers[nextTimerId := Timer(SettleDelay, Settle)];
      nextTimerId := nextTimerId + 1;
      resizeListeners := resizeListeners + 1;
      SetupMutationObserver();
    }

    /**
      sendHeight() with the measured scrollHeight `height`: a change is recorded
      in lastHeight first and then posted; a post the parent refuses is caught,
      so the height counts as reported either way. An unchanged height does nothing.
     */
    method SendHeight(height: nat, parentAccepts: bool)
      requires Valid()
      modifies this
      ensures Valid()
      ensures lastHeight == height
      ensures height == old(lastHeight) ==> posts == old(posts)
      ensures height != old(lastHeight) ==>
                posts == old(posts) + [Post(ResizeMessage(MessageType, height), parentAccepts)]
      ensures observer == old(observer) && resizeTimeout == old(resizeTimeout) && timers == old(timers)
      ensures nextTimerId == old(nextTimerId)
      ensures resizeListeners == old(resizeListeners) && connectedObservers == old(connectedObservers)
    {
      if height != lastHeight {
        lastHeight := height;
        var message := ResizeMessage(MessageType, height);
        posts := posts + [Post(message, parentAccepts)];
      }
    }

    /** The code handleResize and the mutation callback share: clear the stored timer, arm a new one, store its handle. */
    method ArmDebounce(delay: nat)
      requires Valid()
      modifies this
      ensures Valid()
      ensures resizeTimeout == Some(old(nextTimerId)) && nextTimerId == old(nextTimerId) + 1
      ensures timers == (if old(resizeTimeout).Some? then old(timers) - {old(resizeTimeout).value} else old(timers))
                        [old(nextTimerId) := Timer(delay, Debounce)]
      ensures PendingDebounce() == {old(nextTimerId)}
      ensures lastHeight == old(lastHeight) && posts == old(posts) && observer == old(observer)
      ensures resizeListeners == old(resizeListeners) && connectedObservers == old(connectedObservers)
    {
      if resizeTimeout.Some? {
        timers := timers - {resizeTimeout.value};
      }
      timers := timers[nextTimerId := Timer(delay, Debounce)];
      resizeTimeout := Some(nextTimerId);
      nextTimerId := nextTimerId + 1;
    }

    /** handleResize(): debounce with 150 ms. */
    method HandleResize()
      requires Valid()
      modifies this
      ensures Valid()
      ensures resizeTimeout == Some(old(nextTimerId)) && nextTimerId == old(nextTimerId) + 1
      ensures timers == (if old(resizeTimeout).Some? then old(timers) - {old(resizeTimeout).value} else old(timers))
                        [old(nextTimerId) := Timer(ResizeDebounce, Debounce)]
      ensures lastHeight == old(lastHeight) && posts == old(posts) && observer == old(observer)
      ensures resizeListeners == old(resizeListeners) && connectedObservers == old(connectedObservers)
    {
      ArmDebounce(ResizeDebounce);
    }

    /** The MutationObserver callback: debounce with 50 ms, in the same slot. */
    method OnMutation()
      requires Valid()
      modifies this
      ensures Valid()
      ensures resizeTimeout == Some(old(nextTimerId)) && nextTimerId == old(nextTimerId) + 1
      ensures timers == (if old(resizeTimeout).Some? then old(timers) - {old(resizeTimeout).value} else old(timers))
                        [old(nextTimerId) := Timer(MutationDebounce, Debounce)]
      ensures lastHeight == old(lastHeight) && posts == old(posts) && observer == old(observer)
      ensures resizeListeners == old(resizeListeners) && connectedObservers == old(connectedObservers)
    {
      ArmDebounce(MutationDebounce);
    }

    /** setupMutationObserver(): a new observer watches the body; an earlier one is not disconnected. */
    method SetupMutationObserver()
      requires Valid()
      modifies this
      ensures Valid()
      ensures observer && connectedObservers == old(connectedObservers) + 1
      ensures lastHeight == old(lastHeight) && posts == old(posts) && timers == old(timers)
      ensures resizeTimeout == old(resizeTimeout) && nextTimerId == old(nextTimerId)
      ensures resizeListeners == old(resizeListeners)
    {
      observer := true;
      connectedObservers := connectedObservers + 1;
    }

    /**
      destroy(): disconnects the observer and cancels the stored timer, then
      forgets both. The listener passed to removeEventListener is a fresh
      bound function, so the registered resize listener stays.
     */
    method Destroy()
      requires Valid()
      modifies this
      ensures Valid()
      ensures !observer && resizeTimeout == None && PendingDebounce() == {}
      ensures connectedObservers == if old(observer) then old(connectedObservers) - 1 else old(connectedObservers)
      ensures timers == if old(resizeTimeout).Some? then old(timers) - {old(resizeTimeout).value} else old(timers)
      ensures resizeListeners == old(resizeListeners)
      ensures lastHeight == old(lastHeight) && posts == old(posts) && nextTimerId == old(nextTimerId)
      ensures !old(observer) && old(resizeTimeout) == None ==> timers == old(timers) && connectedObservers == old(connectedObservers)
    {
      if observer {
        connectedObservers := connectedObservers - 1;
        observer := false;
      }
      if resizeTimeout.Some? {
        timers := timers - {resizeTimeout.value};
        resizeTimeout := None;
      }
    }

    /** The browser dispatches a window resize event: every registered listener calls handleResize, which collapses into the one call. */
    method WindowResized()
      requires Valid()
      modifies this
      ensures Valid()
      ensures resizeListeners == 0 ==> timers == old(timers) && resizeTimeout == old(resizeTimeout)
      ensures resizeListeners == 0 ==> nextTimerId == old(nextTimerId)
      ensures resizeListeners > 0 ==> (resizeTimeout == Some(old(nextTimerId)) && nextTimerId == old(nextTimerId) + 1
                                      && timers == (if old(resizeTimeout).Some? then old(timers) - {old(resizeTimeout).value} else old(timers))
                                                    [old(nextTimerId) := Timer(ResizeDebounce, Debounce)])
      ensures lastHeight == old(lastHeight) && posts == old(posts) && observer == old(observer)
      ensures resizeListeners == old(resizeListeners) && connectedObservers == old(connectedObservers)
    {
      if resizeListeners > 0 {
        HandleResize();
      }
    }

    /** The body changes: a connected observer runs its callback. */
    method ContentMutated()
      requires Valid()
      modifies this
      ensures Valid()
      ensures connectedObservers == 0 ==> timers == old(timers) && resizeTimeout == old(resizeTimeout)
      ensures connectedObservers == 0 ==> nextTimerId == old(nextTimerId)
      ensures connectedObservers > 0 ==> (resizeTimeout == Some(old(nextTimerId)) && nextTimerId == old(nextTimerId) + 1
                                         && timers == (if old(resizeTimeout).Some? then old(timers) - {old(resizeTimeout).value} else old(timers))
                                                       [old(nextTimerId) := Timer(MutationDebounce, Debounce)])
      ensures lastHeight == old(lastHeight) && posts == old(posts) && observer == old(observer)
      ensures resizeListeners == old(resizeListeners) && connectedObservers == old(connectedObservers)
    {
      if connectedObservers > 0 {
        OnMutation();
      }
    }

    /**
      The browser runs the pending timer `id`, which calls sendHeight with the
      height measured then. resizeTimeout keeps the stale handle. A handle that
      is not pending does nothing.
     */
    method FireTimer(id: nat, height: nat, parentAccepts: bool)
      requires Valid()
      modifies this
      ensures Valid()
      ensures id !in old(timers) ==> timers == old(timers) && posts == old(posts) && lastHeight == old(lastHeight)
      ensures id in old(timers) ==> timers == old(timers) - {id} && lastHeight == height
      ensures id in old(timers) && height != old(lastHeight) ==>
                posts == old(posts) + [Post(ResizeMessage(MessageType, height), parentAccepts)]
      ensures height == old(lastHeight) ==> posts == old(posts)
      ensures resizeTimeout == old(resizeTimeout) && observer == old(observer) && nextTimerId == old(nextTimerId)
      ensures resizeListeners == old(resizeListeners) && connectedObservers == old(connectedObservers)
    {
      if id in timers {
        timers := timers - {id};
        SendHeight(height, parentAccepts);
      }
    }
  }

  /** At most one debounced send is ever pending, and it is the one resizeTimeout names. */
  lemma AtMostOnePendingDebounce(r: IframeResizer)
    requires r.Valid()
    ensures |r.PendingDebounce()| <= 1
    ensures r.PendingDebounce() != {} ==> r.resizeTimeout.Some? && r.PendingDebounce() == {r.resizeTimeout.value}
  {
    if r.resizeTimeout.Some? {
      assert r.PendingDebounce() <= {r.resizeTimeout.value};
      SubsetOfSingleton(r.PendingDebounce(), r.resizeTimeout.value);
    } else {
      assert r.PendingDebounce() == {};
    }
  }

  lemma SubsetOfSingleton(s: set<nat>, x: nat)
    requires s <= {x}
    ensures |s| <= 1
    ensures s != {} ==> s == {x}
  {
    if s != {} {
      assert x in s;
      assert s == {x};
    }
  }

  /** Every attempted post is a resize message for a height different from the one reported before it. */
  lemma PostsAreChanges(r: IframeResizer, i: nat)
    requires r.Valid() && i < |r.posts|
    ensures r.posts[i].message.kind == MessageType
    ensures i == 0 ==> r.posts[i].message.height != 0
    ensures i > 0 ==> r.posts[i].message.height != r.posts[i - 1].message.height
  {
  }

  /** init in a top-level window: no timer, no listener, no observer, and later events send nothing. */
  method TopLevelInitIsInert(height: nat) returns (pendingTimers: nat, listeners: nat, observing: bool, sent: nat)
    ensures pendingTimers == 0 && listeners == 0 && !observing && sent == 0
  {
    var r := new IframeResizer();
    r.Init(true);
    r.WindowResized();
    r.ContentMutated();
    r.FireTimer(1, height, true);
    pendingTimers, listeners, observing, sent := |r.timers|, r.resizeListeners, r.observer, |r.posts|;
  }

  /**
    In a frame: the settle timer reports the first height; then two mutations
    and a window resize leave a single pending send; a cancelled handle does
    nothing when asked to fire, and the surviving one reports the new height once.
   */
  method BurstSendsOnce(first: nat, later: nat) returns (pendingAfterBurst: nat, sent: seq<Post>)
    requires first != later
    ensures pendingAfterBurst == 1
    ensures sent == (if first == 0 then [] else [Post(ResizeMessage(MessageType, first), true)])
                    + [Post(ResizeMessage(MessageType, later), true)]
  {
    var r := new IframeResizer();
    r.Init(false);
    r.FireTimer(1, first, true);
    ghost var reported := r.posts;
    assert reported == (if first == 0 then [] else [Post(ResizeMessage(MessageType, first), true)]);
    assert r.timers == map[] && r.lastHeight == first;
    r.ContentMutated();
    assert r.timers == map[2 := Timer(MutationDebounce, Debounce)];
    r.ContentMutated();
    assert r.timers == map[3 := Timer(MutationDebounce, Debounce)];
    r.WindowResized();
    assert r.timers == map[4 := Timer(ResizeDebounce, Debounce)];
    assert r.posts == reported && r.lastHeight == first;
    pendingAfterBurst := |r.timers|;
    r.FireTimer(2, later, true);
    assert r.posts == reported && r.timers == map[4 := Timer(ResizeDebounce, Debounce)];
    r.FireTimer(4, later, true);
    sent := r.posts;
  }

  /** Two reports of the same height: the first one posts (when it differs from 0), the second is a no-op. */
  method SameHeightTwice(height: nat) returns (sent: nat, last: nat)
    ensures sent == (if height == 0 then 0 else 1)
    ensures last == height
  {
    var r := new IframeResizer();
    r.SendHeight(height, true);
    r.SendHeight(height, true);
    sent, last := |r.posts|, r.lastHeight;
  }

  /** A refused post still counts as reported: the same height is not posted again. */
  method FailedPostCountsAsReported(height: nat) returns (sent: seq<Post>)
    requires height > 0
    ensures sent == [Post(ResizeMessage(MessageType, height), false)]
  {
    var r := new IframeResizer();
    r.SendHeight(height, false);
    r.SendHeight(height, true);
    sent := r.posts;
  }

  /**
    After destroy, twice: observer and resizeTimeout are gone and nothing is pending,
    mutations no longer arm a timer, but the resize listener is still registered,
    so a window resize arms one again.
   */
  method DestroyKeepsResizeListener() returns (observing: bool, slotEmpty: bool, pendingAfterMutation: nat, armedByResize: bool)
    ensures !observing && slotEmpty && pendingAfterMutation == 0
    ensures armedByResize
  {
    var r := new IframeResizer();
    r.Init(false);
    r.FireTimer(1, 600, true);
    assert r.timers == map[];
    r.ContentMutated();
    r.Destroy();
    assert r.timers == map[];
    r.Destroy();
    observing, slotEmpty := r.observer, r.resizeTimeout == None;
    r.ContentMutated();
    pendingAfterMutation := |r.timers|;
    r.WindowResized();
    armedByResize := r.resizeTimeout.Some?;
  }
}
