/** The content model: one `Trend` record per explained piece of internet
    slang, and the bundled list the app starts from. */
module Trends {

  datatype Option<T> = None | Some(value: T)

  /** The fixed set of category tags a trend may carry. */
  datatype Category = Slang | Meme | Platform | Trend

  /** A "learn more" link. */
  datatype Source = Source(name: string, url: string)

  /** One content record. `id` is the identity used for favorites and list keys. */
  datatype Trend = TrendRecord(
    id: string,
    title: string,
    shortSummary: string,
    longExplanation: string,
    exampleSentence: string,
    category: Category,
    sources: seq<Source>,
    tags: seq<string>
  )

  /** The ids of a snapshot, in order. */
  function Ids(trends: seq<Trend>): (ids: seq<string>)
    ensures |ids| == |trends|
    ensures forall k :: 0 <= k < |trends| ==> ids[k] == trends[k].id
    decreases |trends|
  {
    if trends == [] then [] else [trends[0].id] + Ids(trends[1..])
  }

  /** No two trends of a snapshot share an id. */
  predicate UniqueIds(trends: seq<Trend>) {
    forall j, k :: 0 <= j < k < |trends| ==> trends[j].id != trends[k].id
  }

  /** The bundled list shown until a fetch succeeds. */
  const FALLBACK_TRENDS: seq<Trend> := [
    TrendRecord(
      "npc-streamer",
      "NPC Streamer",
      "Streamers acting like 'non-player characters' replying with preset phrases for tips.",
      "Some livestreamers roleplay as video-game NPCs, responding with fixed phrases or actions when viewers send paid tips or prompts. It’s performative, meme-y, and built around microtransactions.",
      "My niece watches an NPC streamer who says the same line every time someone tips.",
      Category.Trend,
      [Source("Know Your Meme", "https://knowyourmeme.com")],
      ["tiktok", "streaming", "npc"]),
    TrendRecord(
      "brat-summer",
      "Brat Summer",
      "A tongue-in-cheek vibe of carefree confidence and messy fun.",
      "Borrowed from pop culture, 'brat' in this context is playful self-confidence: doing your thing, not overthinking, and embracing a slightly chaotic summer energy.",
      "They're calling it 'brat summer'—basically giving yourself permission to be a little silly.",
      Slang,
      [Source("News explainer", "https://www.apple.com/newsroom/")],
      ["slang", "summer", "pop"]),
    TrendRecord(
      "ratio",
      "Ratio",
      "When replies outnumber likes—used as a dunk to show disapproval.",
      "On social platforms, if a post has far more reply comments than likes or reposts, people say it’s 'ratioed'—a quick way to signal the audience doesn’t agree.",
      "That politician’s post got ratioed—more replies than likes.",
      Platform,
      [Source("OutOfTheLoop", "https://www.reddit.com/r/OutOfTheLoop/")],
      ["twitter", "x", "replies"])
  ]

  /** The bundled list is non-empty and its ids are distinct. */
  lemma FallbackWellFormed()
    ensures |FALLBACK_TRENDS| == 3 && UniqueIds(FALLBACK_TRENDS)
  {
    var ids := [FALLBACK_TRENDS[0].id, FALLBACK_TRENDS[1].id, FALLBACK_TRENDS[2].id];
    assert ids[0][0] == 'n' && ids[1][0] == 'b' && ids[2][0] == 'r';
  }
}
