/**
 * The voice-command classifiers all share one shape: a lower-cased transcript
 * is checked against groups of phrases in a fixed order, and the first group
 * with a phrase the transcript contains decides the command.
 */
module PhraseTable {
  import opened Wrappers
  import opened Text

  /** One `if (command.includes(a) || command.includes(b) ...)` test and the command it selects. */
  datatype Entry<C> = Entry(phrases: seq<string>, command: C)

  /** Some phrase of the group occurs in the command text. */
  predicate Mentions(command: string, phrases: seq<string>) {
    exists i :: 0 <= i < |phrases| && Contains(command, phrases[i])
  }

  /** Entry `k` is the first entry of the table whose phrases occur in the text. */
  predicate FirstAt<C>(command: string, table: seq<Entry<C>>, k: int) {
    && 0 <= k < |table|
    && Mentions(command, table[k].phrases)
    && forall j :: 0 <= j < k ==> !Mentions(command, table[j].phrases)
  }

  /** The index of the entry whose test succeeds first, as the source's chain of early returns finds it. */
  function FirstMatch<C>(command: string, table: seq<Entry<C>>): (r: Option<nat>)
    ensures r.Some? ==> FirstAt(command, table, r.value)
    ensures r.None? <==> forall k :: 0 <= k < |table| ==> !Mentions(command, table[k].phrases)
  {
    if table == [] then None
    else if Mentions(command, table[0].phrases) then Some(0)
    else match FirstMatch(command, table[1..])
      case None => None
      case Some(k) => Some(k + 1)
  }

  /** The first matching entry is unique, so any entry that is first is the one found. */
  lemma FirstMatchIs<C>(command: string, table: seq<Entry<C>>, k: int)
    requires FirstAt(command, table, k)
    ensures FirstMatch(command, table) == Some(k)
  {
  }

  /** A text that mentions entry `k` is decided by entry `k` or by an earlier one. */
  lemma MentionDecides<C>(command: string, table: seq<Entry<C>>, k: int)
    requires 0 <= k < |table| && Mentions(command, table[k].phrases)
    ensures FirstMatch(command, table).Some? && FirstMatch(command, table).value <= k
  {
  }
}
