/**
  The ring buffer as the object the program holds: calls made one at a time.
  Each access updates the ghost state of the two-thread machine by the step it
  stands for, so a call here is the machine's schedule without interference.
 */
module Queue {
  import opened Prelude
  import Masks
  import Spsc

  class SpscQueue<T> {
    const n: nat
    var head: nat
    var tail: nat
    const buffer: array<Option<T>>
    ghost var model: Spsc.State<T>

    ghost predicate Valid()
      reads this, buffer
    {
      && Spsc.Inv(model)
      && model.n == n
      && model.producer.PIdle? && model.consumer.CIdle?
      && head == |model.accepted| % n
      && tail == |model.taken| % n
      && buffer[..] == model.slots
    }

    /** The items held, oldest first. */
    ghost function Contents(): seq<T>
      reads this, buffer
      requires Valid()
    {
      Spsc.Contents(model)
    }

    constructor (n: nat)
      requires Masks.AcceptedSize(n) && n < Masks.SIZE_T
      ensures Valid() && fresh(buffer) && this.n == n && Contents() == []
    {
      this.n := n;
      head, tail := 0, 0;
      buffer := new Option<T>[n](_ => None);
      model := Spsc.Init(n);
      new;
      Spsc.InitInv<T>(n);
    }

    method TryPush(item: T) returns (ok: bool)
      requires Valid()
      modifies this, buffer
      ensures Valid()
      ensures ok <==> |old(Contents())| < n - 1
      ensures Contents() == if ok then old(Contents()) + [item] else old(Contents())
      ensures model.accepted == if ok then old(model.accepted) + [item] else old(model.accepted)
      ensures model.taken == old(model.taken)
    {
      Spsc.CurrentTests(|model.accepted|, |model.taken|, n);
      var h := head;
      var next := Masks.And(h + 1, n - 1);
      if next == tail {
        Spsc.PushRefused(model, item);
        model := Spsc.Exec(model, Spsc.PushSteps(model, item)[..2]);
        return false;
      }
      Spsc.PushCompletes(model, item);
      buffer[h] := Some(item);
      head := next;
      model := Spsc.Exec(model, Spsc.PushSteps(model, item));
      return true;
    }

    method TryPop() returns (item: Option<T>)
      requires Valid()
      modifies this, buffer
      ensures Valid()
      ensures item == if old(Contents()) == [] then None else Some(old(Contents())[0])
      ensures Contents() == if old(Contents()) == [] then [] else old(Contents())[1..]
      ensures model.accepted == old(model.accepted)
    {
      Spsc.CurrentTests(|model.accepted|, |model.taken|, n);
      var t := tail;
      if t == head {
        Spsc.PopRefused(model);
        model := Spsc.Exec(model, Spsc.PopSteps(model)[..2]);
        return None;
      }
      Spsc.PopCompletes(model);
      item := buffer[t];
      buffer[t] := None;
      tail := Masks.And(t + 1, n - 1);
      model := Spsc.Exec(model, Spsc.PopSteps(model));
    }

    method Empty() returns (r: bool)
      requires Valid()
      ensures r <==> Contents() == []
    {
      Spsc.SizeMeaning(|model.accepted|, |model.taken|, n);
      r := head == tail;
    }

    method Size() returns (r: nat)
      requires Valid()
      ensures r == |Contents()|
    {
      Spsc.SizeMeaning(|model.accepted|, |model.taken|, n);
      r := Masks.And(Masks.WrapSub(head, tail), n - 1);
    }
  }
}
