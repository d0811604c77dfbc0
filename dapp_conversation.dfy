/**
 * The conversational dApp builder's routing rule: which of its three
 * prompts (plan, code, refine) answers a conversation. Only the number of
 * messages and the content of the last one decide.
 */
module DappConversation {
  import opened Wrappers

  datatype Role = User | Model

  datatype Message = Message(role: Role, content: string)

  datatype Branch = PlanBranch | CodeBranch | RefineBranch

  /**
   * `toLowerCase` on the ASCII letters; every other character is kept. The
   * only use is a search for the all-ASCII word "approve", and no non-ASCII
   * character lowercases to text holding one of its letters, so the search
   * finds exactly what it finds after a full `toLowerCase`.
   */
  function ToLower(c: char): (l: char)
    ensures 'A' <= c <= 'Z' ==> l == c + ('a' - 'A')
    ensures !('A' <= c <= 'Z') ==> l == c
  {
    if 'A' <= c <= 'Z' then c + ('a' - 'A') else c
  }

  function LowerCase(s: string): (r: string)
    ensures |r| == |s| && forall i :: 0 <= i < |s| ==> r[i] == ToLower(s[i])
  {
    seq(|s|, i requires 0 <= i < |s| => ToLower(s[i]))
  }

  /** `needle` occurs in `s` starting at position `k`. */
  predicate OccursAt(s: string, needle: string, k: int)
  {
    0 <= k <= |s| - |needle| && s[k..k + |needle|] == needle
  }

  /** `s.includes(needle)`: `needle` occurs in `s` at some position. */
  predicate Contains(s: string, needle: string)
  {
    exists k :: 0 <= k <= |s| - |needle| && OccursAt(s, needle, k)
  }

  /** Whether the code branch's test succeeds on a message. */
  predicate Approves(content: string)
  {
    Contains(LowerCase(content), "approve")
  }

  /**
   * The branch `conversationalDAppBuilder` takes. An empty conversation has
   * no last message: reading its content throws, modelled as `None`.
   */
  function ChooseBranch(messages: seq<Message>): (b: Option<Branch>)
    ensures b.None? <==> messages == []
    ensures |messages| == 1 ==> b == Some(PlanBranch)
    ensures |messages| > 1 ==> (b == Some(CodeBranch) <==> Approves(messages[|messages| - 1].content))
    ensures |messages| > 1 ==> (b == Some(RefineBranch) <==> !Approves(messages[|messages| - 1].content))
  {
    if messages == [] then None
    else if |messages| == 1 then Some(PlanBranch)
    else if Approves(messages[|messages| - 1].content) then Some(CodeBranch)
    else Some(RefineBranch)
  }

  /**
   * A single message takes the plan branch whatever it says, even when it
   * approves something.
   */
  lemma SingleMessagePlans(m: Message)
    ensures Approves("I approve") && ChooseBranch([m]) == Some(PlanBranch)
  {
    assert OccursAt(LowerCase("I approve"), "approve", 2);
  }

  /** A string lacking one of the needle's letters does not contain the needle. */
  lemma MissingLetter(s: string, needle: string, j: nat)
    requires j < |needle|
    requires forall i :: 0 <= i < |s| ==> s[i] != needle[j]
    ensures !Contains(s, needle)
  {
    forall k | 0 <= k <= |s| - |needle|
      ensures !OccursAt(s, needle, k)
    {
      assert s[k..k + |needle|][j] == s[k + j] != needle[j];
    }
  }

  /** The test is a case-insensitive substring test: `APPROVED` and `disapprove` both pass it. */
  lemma SubstringMatches(history: seq<Message>, role: Role)
    requires history != []
    ensures ChooseBranch(history + [Message(role, "APPROVED")]) == Some(CodeBranch)
    ensures ChooseBranch(history + [Message(role, "I disapprove")]) == Some(CodeBranch)
    ensures ChooseBranch(history + [Message(role, "looks good")]) == Some(RefineBranch)
  {
    assert OccursAt(LowerCase("APPROVED"), "approve", 0);
    assert OccursAt(LowerCase("I disapprove"), "approve", 5);
    var good := LowerCase("looks good");
    assert forall i :: 0 <= i < |good| ==> good[i] != 'v';
    MissingLetter(good, "approve", 5);
  }

  /**
   * Only the last message's content decides: earlier messages and the last
   * message's role can be changed freely as long as the count stays.
   */
  lemma OnlyLastContentDecides(a: seq<Message>, b: seq<Message>)
    requires |a| == |b| && |a| >= 1
    requires a[|a| - 1].content == b[|b| - 1].content
    ensures ChooseBranch(a) == ChooseBranch(b)
  {
  }
}
