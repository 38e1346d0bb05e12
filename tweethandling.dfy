/** The ingestion listener: drops statuses without text or vetoed by the active classifier,
    stores the others, and takes a newly trained classifier from the queue it shares with the
    trainer, asking the stream to restart when it does. */
module TweetHandling {
  import opened Common

  /** The FIFO queue shared by the trainer (which puts) and the listener (which takes).
      `putLog` and `taken` are the history: what was taken, followed by what is still waiting,
      is everything ever put, in order. */
  class ClassifierQueue<T> {
    var items: seq<T>
    ghost var putLog: seq<T>
    ghost var taken: seq<T>

    ghost predicate Valid()
      reads this
    {
      taken + items == putLog
    }

    constructor ()
      ensures Valid() && items == [] && putLog == [] && taken == []
    {
      items, putLog, taken := [], [], [];
    }

    predicate IsEmpty()
      reads this
    {
      items == []
    }

    method Put(x: T)
      requires Valid()
      modifies this
      ensures Valid()
      ensures items == old(items) + [x]
      ensures putLog == old(putLog) + [x] && taken == old(taken)
    {
      items := items + [x];
      putLog := putLog + [x];
    }

    /** Takes the oldest waiting element; only called on a queue found non-empty. */
    method Get() returns (x: T)
      requires Valid() && items != []
      modifies this
      ensures Valid()
      ensures x == old(items)[0] && items == old(items)[1..]
      ensures taken == old(taken) + [x] && putLog == old(putLog)
    {
      x := items[0];
      items := items[1..];
      taken := taken + [x];
    }
  }

  /** What `on_status` returns: `None` and `True` keep the stream going, `False` restarts it. */
  datatype Reply = ReturnNone | ReturnTrue | ReturnFalse

  /** One combined tweet-and-author insert, and whether it was committed or raised. */
  datatype StoreAttempt = StoreAttempt(tweet: Tweet, committed: bool)

  /** A status is accepted when it has text and no classifier is active or the active one
      predicts it relevant. */
  predicate Accepts<C>(classifier: Option<C>, data: Tweet, features: seq<real>, predict: (C, seq<real>) -> bool) {
    data.text != [] && (classifier.None? || predict(classifier.value, features))
  }

  class TweetStreamListener<C> {
    const queue: ClassifierQueue<C>
    var classifier: Option<C>
    /** The insert attempts sent to the store, in order. */
    var storeLog: seq<StoreAttempt>

    /** A new listener has no classifier, so it accepts every status with text. */
    constructor (queue: ClassifierQueue<C>)
      ensures this.queue == queue && classifier == None && storeLog == []
    {
      this.queue := queue;
      classifier := None;
      storeLog := [];
    }

    /** Handles one status. `features` and `predict` stand for the vector and the classifier's
        prediction; `storeOk` says whether the insert commits or raises, which is swallowed. */
    method OnStatus(data: Tweet, features: seq<real>, predict: (C, seq<real>) -> bool, storeOk: bool)
      returns (reply: Reply)
      requires queue.Valid()
      modifies this, queue
      ensures queue.Valid()
      ensures queue.putLog == old(queue.putLog)
      ensures !Accepts(old(classifier), data, features, predict) ==>
        && reply == ReturnNone
        && classifier == old(classifier) && storeLog == old(storeLog)
        && queue.items == old(queue.items) && queue.taken == old(queue.taken)
      ensures Accepts(old(classifier), data, features, predict) ==>
        storeLog == old(storeLog) + [StoreAttempt(data, storeOk)]
      ensures Accepts(old(classifier), data, features, predict) && old(queue.items) != [] ==>
        && reply == ReturnFalse
        && classifier == Some(old(queue.items)[0])
        && queue.items == old(queue.items)[1..]
        && queue.taken == old(queue.taken) + [old(queue.items)[0]]
      ensures Accepts(old(classifier), data, features, predict) && old(queue.items) == [] ==>
        && reply == ReturnTrue
        && classifier == old(classifier)
        && queue.items == old(queue.items) && queue.taken == old(queue.taken)
    {
      if data.text == [] {
        return ReturnNone;
      }
      if classifier.Some? && !predict(classifier.value, features) {
        return ReturnNone;
      }
      storeLog := storeLog + [StoreAttempt(data, storeOk)];
      if !queue.IsEmpty() {
        var next := queue.Get();
        classifier := Some(next);
        return ReturnFalse;
      } else {
        return ReturnTrue;
      }
    }
  }

  /** Two classifiers put one after the other are taken oldest first, one per accepted status,
      and each take asks for a restart. */
  method FifoHandoff<C>(first: C, second: C, data: Tweet, features: seq<real>, predict: (C, seq<real>) -> bool)
    returns (afterOne: Option<C>, afterTwo: Option<C>, replies: seq<Reply>)
    requires data.text != []
    requires predict(first, features)
    ensures afterOne == Some(first) && afterTwo == Some(second)
    ensures replies == [ReturnFalse, ReturnFalse]
  {
    var queue := new ClassifierQueue<C>();
    var listener := new TweetStreamListener(queue);
    queue.Put(first);
    queue.Put(second);
    var r1 := listener.OnStatus(data, features, predict, true);
    afterOne := listener.classifier;
    var r2 := listener.OnStatus(data, features, predict, false);
    afterTwo := listener.classifier;
    replies := [r1, r2];
  }
}
