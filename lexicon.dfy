/**
 * The fixed lexicon of VishwaguruScript: keyword, operator and symbol
 * tables, and the `Declaration` node-tag object.
 */
module Lexicon {

  /** Reserved words, in table order. */
  const Keywords: seq<string> := [
    "arambha", "systummm", "bihari_sramik", "ghoshit_kar", "nishchit_kar",
    "yadi", "anyatha_yadi", "anyatha", "prati_ghatak", "yatha", "viram",
    "agla_ghaatak", "prakashit_kar"
  ]

  /** Operators, in the order the tokenizer tries them. */
  const Operators: seq<string> := [
    "==", "!=", "<=", ">=", "&&", "ca", "va", "na", "satya", "asatya",
    "chintan", "||", "=", "<", ">", "+", "-", "*", "/", "%", "!"
  ]

  /** Grouping and statement-control symbols. */
  const Symbols: seq<string> := ["(", ")", "{", "}", ",", ";"]

  /** The `Declaration` object: node-tag keys and their string values. */
  const Declaration: map<string, string> := map[
    "VarDeclaration" := "VarDeclaration",
    "ConstDeclaration" := "ConstDeclaration",
    "FunctionDeclaration" := "FunctionDeclaration",
    "InputDeclaration" := "InputDeclaration",
    "OutputDeclaration" := "OutputDeclaration",
    "IfDeclaration" := "IfDeclaration",
    "WhileDeclaration" := "WhileDeclaration",
    "ForDeclaration" := "ForDeclaration",
    "BreakDeclaration" := "BreakDeclaration",
    "ContinueDeclaration" := "ContinueDeclaration",
    "ReturnDeclaration" := "ReturnDeclaration",
    "AssignmentDeclaration" := "AssignmentDeclaration"
  ]

  predicate IsProperPrefix(p: string, s: string) {
    |p| < |s| && s[..|p|] == p
  }

  /** Every operator has at least one character. */
  lemma OperatorsNonEmpty()
    ensures forall i :: 0 <= i < |Operators| ==> |Operators[i]| > 0
  {
  }

  /**
   * No operator is a proper prefix of an operator listed after it
   * (`==` precedes `=`, `!=` precedes `!`, `&&`/`||` have no one-character
   * form).
   */
  lemma OperatorTableOrdered()
    ensures forall i, j :: 0 <= i < j < |Operators| ==> !IsProperPrefix(Operators[i], Operators[j])
  {
    forall i, j | 0 <= i < j < |Operators|
      ensures !IsProperPrefix(Operators[i], Operators[j])
    {
      // Only entries 0..7 (two characters) and 8..9 precede longer ones,
      // namely the word operators at 8..10.
      var p, s := Operators[i], Operators[j];
      if |p| < |s| {
        assert 8 <= j <= 10;
        if j == 8 {
          assert s == "satya" && s[..2] == "sa";
        } else if j == 9 {
          assert s == "asatya" && s[..2] == "as" && s[..5] == "asaty";
        } else {
          assert s == "chintan" && s[..2] == "ch" && s[..5] == "chint" && s[..6] == "chinta";
        }
      }
    }
  }

  /** The characters an operator can start with. */
  const OperatorInitials: string := "=!<>&cvnsa|+-*/%"

  /** Every operator starts with one of `OperatorInitials`. */
  lemma OperatorsStartWithInitials()
    ensures forall i :: 0 <= i < |Operators| ==> |Operators[i]| > 0 && Operators[i][0] in OperatorInitials
  {
  }

  /** The thirteen keywords are pairwise distinct. */
  lemma KeywordsDistinct()
    ensures |Keywords| == 13
    ensures forall i, j :: 0 <= i < j < |Keywords| ==> Keywords[i] != Keywords[j]
  {
  }

  /** No keyword is also an operator. */
  lemma KeywordsAreNotOperators()
    ensures forall w :: w in Keywords ==> w !in Operators
  {
  }

  /** The six symbols are single characters, distinct, and none of them is an operator. */
  lemma SymbolsAreSingleCharacters()
    ensures |Symbols| == 6
    ensures forall i :: 0 <= i < |Symbols| ==> |Symbols[i]| == 1 && Symbols[i] !in Operators
    ensures forall i, j :: 0 <= i < j < |Symbols| ==> Symbols[i] != Symbols[j]
  {
  }

  /** Every tag string equals its key, so the tags are pairwise distinct. */
  lemma DeclarationTagsAreKeys()
    ensures forall k :: k in Declaration ==> Declaration[k] == k
    ensures "BreakDeclaration" in Declaration && Declaration["BreakDeclaration"] == "BreakDeclaration"
  {
  }
}
