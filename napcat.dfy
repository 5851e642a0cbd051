/**
 * The chat gateway client, reduced to what the outbox sees of it: one call per
 * message, answering success or an error text. `replies` gives the answer to
 * the k-th call; `sends` records every call made.
 */
module NapCat {
  import opened Results

  /** The body of one `send_group_msg` request. */
  datatype GroupMessage = GroupMessage(groupId: string, message: string)

  class NapCatService {
    const replies: nat -> Outcome<string>
    var calls: nat
    ghost var sends: seq<GroupMessage>

    ghost predicate Valid()
      reads this
    {
      |sends| == calls
    }

    constructor (replies: nat -> Outcome<string>)
      ensures Valid() && calls == 0 && sends == [] && this.replies == replies
    {
      this.replies := replies;
      calls := 0;
      sends := [];
    }

    method SendGroupMessage(groupId: string, message: string) returns (err: Outcome<string>)
      requires Valid()
      modifies this
      ensures Valid()
      ensures calls == old(calls) + 1
      ensures sends == old(sends) + [GroupMessage(groupId, message)]
      ensures err == replies(old(calls))
    {
      err := replies(calls);
      calls := calls + 1;
      sends := sends + [GroupMessage(groupId, message)];
    }
  }
}
