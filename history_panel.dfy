/** The search box of the history panel (app/components/HistoryPanel.tsx):
    a case-insensitive substring filter over the file name and the notes. */
module HistoryPanel {
  import opened Common
  import History

  /** An entry matches when its lower-cased file name or notes include
      the lower-cased term; an entry without notes can only match by name. */
  predicate Matches(term: string, item: History.Item)
  {
    var t := Lower(term);
    Contains(Lower(item.fileName), t) || (item.notes.Some? && Contains(Lower(item.notes.value), t))
  }

  function MatchesTerm(term: string): History.Item -> bool
  {
    (item: History.Item) => Matches(term, item)
  }

  /** The list shown: the whole history for an empty term, else the
      matching entries. */
  function Search(history: seq<History.Item>, term: string): seq<History.Item>
  {
    if term == "" then history else Filter(history, MatchesTerm(term))
  }

  /** The entries shown are exactly the matching ones, in history order. */
  lemma SearchMeaning(history: seq<History.Item>, term: string)
    ensures forall x :: x in Search(history, term) <==> x in history && Matches(term, x)
    ensures Subsequence(Search(history, term), history)
  {
    if term == "" {
      forall x | x in history
        ensures Matches(term, x)
      {
        ContainsEmpty(Lower(x.fileName));
      }
      SubsequenceReflexive(history);
    } else {
      forall x | x in history && Matches(term, x)
        ensures x in Search(history, term)
      {
        FilterKeeps(history, MatchesTerm(term), x);
      }
      FilterIsSubsequence(history, MatchesTerm(term));
    }
  }

  /** The letter case of the term never changes the list. */
  lemma SearchIgnoresCase(history: seq<History.Item>, term: string)
    ensures Search(history, term) == Search(history, Lower(term))
  {
    LowerIdempotent(term);
    if term != "" {
      assert Lower(term) != [];
      FilterCongruent(history, MatchesTerm(term), MatchesTerm(Lower(term)));
    }
  }

  /** An entry without notes matches exactly when its name does. */
  lemma NoNotesMatchesByName(term: string, item: History.Item)
    requires item.notes.None?
    ensures Matches(term, item) <==> Contains(Lower(item.fileName), Lower(term))
  {
  }
}
