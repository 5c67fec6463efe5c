/** The shared data types of the feed (src/types/index.ts). */
module Types {

  /** A pitch as the feed shows it. Dates become integer millisecond timestamps
      (what `Date.getTime()` returns); funding amounts are whole numbers. */
  datatype PitchVideo = PitchVideo(
    id: string,
    companyName: string,
    tagline: string,
    videoUrl: string,
    thumbnailUrl: string,
    fundingGoal: int,
    fundingRaised: int,
    category: string,
    description: string,
    founderName: string,
    location: string,
    createdAt: int)

  /** `'left' | 'right' | 'none'`; `Neutral` is the `'none'` case. */
  datatype SwipeDirection = Left | Right | Neutral
}
