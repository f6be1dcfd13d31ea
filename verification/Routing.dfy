/** Which agent a turn is routed to, said in the words of the source's keyword lists. */
module Routing {
  import opened Workflow

  /** The keyword occurs in the text, letter case aside. */
  ghost predicate Mentioned(env: Env, text: string, word: string) {
    exists before, after :: env.lower(text) == before + env.lower(word) + after
  }

  ghost predicate MentionsOneOf(env: Env, text: string, words: seq<string>) {
    exists i :: 0 <= i < |words| && Mentioned(env, text, words[i])
  }

  /** A word of research beats any word of code. */
  ghost function RoutedTo(env: Env, text: string): string {
    if MentionsOneOf(env, text, ["search", "find", "research", "what is", "who is", "latest", "news", "current"])
    then "researcher"
    else if MentionsOneOf(env, text, ["code", "function", "program", "debug", "fix", "implement", "class", "api"])
    then "coder"
    else "general"
  }

  lemma ContainsIff(text: string, sub: string)
    ensures Contains(text, sub) <==> exists before, after :: text == before + sub + after
  {
    if Contains(text, sub) {
      var i :| 0 <= i <= |text| - |sub| && OccursAt(text, sub, i);
      assert text == text[..i] + sub + text[i + |sub|..];
    }
    if exists before, after :: text == before + sub + after {
      var before, after :| text == before + sub + after;
      assert OccursAt(text, sub, |before|);
    }
  }

  lemma MentionsIff(env: Env, text: string, words: seq<string>)
    ensures Mentions(env, text, words) <==> MentionsOneOf(env, text, words)
  {
    hide Contains;
    forall word ensures ContainsIgnoreCase(env, text, word) <==> Mentioned(env, text, word) {
      ContainsIff(env.lower(text), env.lower(word));
    }
    hide ContainsIgnoreCase, Mentioned;
  }

  /** The router's choice is this one. */
  lemma RoutedByKeywords(env: Env, text: string)
    ensures AgentFor(env, text) == RoutedTo(env, text)
  {
    hide Mentions, MentionsOneOf;
    MentionsIff(env, text, RESEARCH_KEYWORDS);
    MentionsIff(env, text, CODE_KEYWORDS);
  }
}
