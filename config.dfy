/** The module-level state of main.py that outlives one message. */
module Config {
  import opened KeyPools

  /** The process-wide configuration of lines 18-29: both key pools and the search engine id. */
  class Bot {
    const gemini: KeyPool
    const search: KeyPool
    const cx: string

    ghost predicate Valid()
      reads this, gemini, search
    {
      gemini != search && gemini.Valid() && search.Valid()
    }

    /**
     * Lines 18-29: the two global key lists, each parsed from its own
     * environment variable (`KeyPool`'s constructor), and `GOOGLE_CX_ID`.
     */
    constructor (gemini: KeyPool, search: KeyPool, cx: string)
      requires gemini != search && gemini.Valid() && search.Valid()
      ensures Valid()
      ensures this.gemini == gemini && this.search == search && this.cx == cx
    {
      this.gemini, this.search, this.cx := gemini, search, cx;
    }
  }
}
