/** The architectural constants of the model, as a configuration value so
    that small shapes can be used. */
module Architecture {

  datatype Config = Config(
    embeddingSize: nat,
    numBlocks: nat,
    numHeads: nat,
    headDim: nat,
    vocabSize: nat,
    maxPositionEmbeddings: nat)
  {
    /** The embedding splits evenly into heads, and a head row is a whole
        number of 4-wide lanes. */
    predicate Valid()
    {
      embeddingSize == numHeads * headDim && headDim > 0 && headDim % 4 == 0
    }
  }

  /** The GPT-2 base shape the source is compiled with. */
  const Gpt2Base: Config := Config(768, 12, 12, 768 / 12, 50257, 1024)

  lemma Gpt2BaseIsValid()
    ensures Gpt2Base.Valid() && Gpt2Base.headDim == 64
  {
  }

  /** In a valid configuration the embedding width is a whole number of lanes. */
  lemma EmbeddingIsLaneMultiple(cfg: Config)
    requires cfg.Valid()
    ensures cfg.embeddingSize % 4 == 0
  {
    var t := cfg.headDim / 4;
    assert cfg.headDim == 4 * t;
    assert cfg.numHeads * cfg.headDim == 4 * (cfg.numHeads * t);
  }
}
