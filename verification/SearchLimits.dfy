/** The fixed sizes candidate search works within (neural_candidates.py). */
module SearchLimits {

  const CHINESE_PAGE_SIZE: nat := 7
  const CHINESE_CANDIDATE_COUNT: nat := 35
  const LATIN_PAGE_SIZE: nat := 5
  const MAX_FROZEN_CANDIDATES: nat := 180
  const MAX_MODEL_TOKENS: nat := 16
  const MAX_HAN_CHARACTERS: nat := 64
  const MAX_FRONTIER_PER_BUCKET: nat := 32
  const MAX_LATIN_CHARACTERS: nat := 64
  const LEXICAL_TIER := 50
  const LITERAL_TIER := 1_000_000
}
