/** The records of the flashcard application (types.ts). */
module Types {

  datatype Option<T> = None | Some(value: T)

  /** The alphabet or kind tag of an entry (`AlphabetType`). */
  datatype AlphabetType = Hiragana | Katakana | Vocabulary | Kanji | Grammar | Phrase

  /** The categories of the dataset (`KanaGroup`); the display labels are not modelled. */
  datatype Group =
    | HiraganaBasic | HiraganaDakuten | HiraganaYoon | SpecialSounds
    | KatakanaBasic | KatakanaDakuten | AllBasic
    | Numbers | Dates | N5Pronouns | N5Adjectives | N5Verbs
    | N5KanjiBasic | N5Particles | N5Greetings | N5Counters
    | N5KanjiTimeDir | N5FamilyColors | N5KanjiSchoolLife

  /** One learnable unit (`KanaChar`). `glyph` is the source's `char` field and
      `kind` its `type` field; both names are reserved words in Dafny. */
  datatype Entry = Entry(
    glyph: string,
    romaji: string,
    row: string,
    kind: AlphabetType,
    group: Group,
    meaning: Option<string>)

  /** A multiple-choice question: the entry asked about and the candidate answers. */
  datatype QuizQuestion = QuizQuestion(target: Entry, options: seq<Entry>)

  /** One answered question of the result log. */
  datatype QuizResult = QuizResult(question: QuizQuestion, selectedOption: Entry, isCorrect: bool)

  /** The static dataset `KANA_DATA`: categories to their entries, in source order. */
  type KanaData = map<Group, seq<Entry>>

  function Min(a: int, b: int): int { if a <= b then a else b }
}
