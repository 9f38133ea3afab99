/** The prompt sent to the completion service (main.py, lines 62-76): a fixed
    template, in Portuguese, with the schema description and the user's
    question put in verbatim.  The template asks for PostgreSQL, a LIMIT clause
    for "top N" questions, no WHERE clause unless the user asks for a filter,
    and an answer that is SQL only, without backticks or comments. */
module Prompt {
  import opened PyStr

  /** The template up to the schema description. */
  const PromptIntro: string := "\n    Sua tarefa é traduzir a pergunta de um usuário em uma consulta SQL válida para o PostgreSQL, com base no esquema abaixo.\n\n    Esquema da tabela:\n    "
  /** The template between the schema description and the question: the rules. */
  const PromptRules: string := "\n\n    REGRAS IMPORTANTES:\n    1. Para selecionar um número específico de itens (ex: \"top 5\", \"os 10 mais\"), use a sintaxe 'LIMIT numero' no final da consulta.\n    2. Regra de Filtro: NÃO adicione nenhuma cláusula WHERE a menos que o usuário peça explicitamente por um filtro (de tempo, cliente, etc.).\n    3. Responda APENAS com o código SQL, sem explicações, acentos graves (```) ou comentários.\n\n    Pergunta do Usuário: \""
  /** The template after the question. */
  const PromptClosing: string := "\"\n    \n    SQL:\n    "

  /** Filling an f-string with two holes: the two values stand verbatim at
      fixed offsets between the three fixed parts. */
  function Fill(intro: string, first: string, middle: string, second: string, closing: string): (r: string)
    ensures |r| == |intro| + |first| + |middle| + |second| + |closing|
    ensures r[..|intro|] == intro
    ensures OccursAt(r, first, |intro|)
    ensures OccursAt(r, middle, |intro| + |first|)
    ensures OccursAt(r, second, |intro| + |first| + |middle|)
    ensures r[|r| - |closing|..] == closing
  {
    var r := intro + first + middle + second + closing;
    var a := |intro|;
    var b := a + |first|;
    var c := b + |middle|;
    var d := c + |second|;
    assert r[..a] == intro;
    assert r[a..b] == first;
    assert r[b..c] == middle;
    assert r[c..d] == second;
    assert r[d..] == closing;
    r
  }

  /** Once the length of either value is known, the filled string determines both. */
  lemma FillDeterminesValues(intro: string, first1: string, middle: string, second1: string, closing: string,
                             first2: string, second2: string)
    requires |first1| == |first2| || |second1| == |second2|
    ensures Fill(intro, first1, middle, second1, closing) == Fill(intro, first2, middle, second2, closing)
        <==> first1 == first2 && second1 == second2
  {
  }

  /** The prompt holds the schema and the question verbatim, at fixed offsets,
      between the fixed parts of the template. */
  function BuildPrompt(schema: string, question: string): (prompt: string)
    ensures |prompt| == |PromptIntro| + |schema| + |PromptRules| + |question| + |PromptClosing|
    ensures prompt[..|PromptIntro|] == PromptIntro
    ensures OccursAt(prompt, schema, |PromptIntro|)
    ensures OccursAt(prompt, PromptRules, |PromptIntro| + |schema|)
    ensures OccursAt(prompt, question, |PromptIntro| + |schema| + |PromptRules|)
    ensures prompt[|prompt| - |PromptClosing|..] == PromptClosing
  {
    Fill(PromptIntro, schema, PromptRules, question, PromptClosing)
  }

  /** Two requests give the same prompt exactly when they carry the same schema
      and the same question (once the length of either is known to agree). */
  lemma PromptDeterminesInputs(schema1: string, question1: string, schema2: string, question2: string)
    requires |schema1| == |schema2| || |question1| == |question2|
    ensures BuildPrompt(schema1, question1) == BuildPrompt(schema2, question2)
        <==> schema1 == schema2 && question1 == question2
  {
  }
}
