/** The records of the sentiment-analysis operation, used by both front-ends. */
module MarketPulseFlow {

  datatype PulseInput = PulseInput(topic: string)

  /** The analysis text and the script for its spoken summary. */
  datatype PulseOutput = PulseOutput(analysis: string, audioScript: string)
}
