/**
  The business-model record the scorer, the analyzer and the pages read, and two
  records of the static catalog transcribed for concrete lemmas.
*/
module Catalog {
  import opened Wrappers

  /** `difficulty` is one of "Beginner", "Intermediate", "Advanced"; `scalability` one of
      "Low", "Medium", "High", "Very High"; the other text fields are free-form ranges. */
  datatype BusinessModel = BusinessModel(
    id: string,
    title: string,
    description: string,
    detailedDescription: Option<string>,
    timeToStart: string,
    initialInvestment: string,
    potentialIncome: string,
    difficulty: string,
    category: string,
    pros: seq<string>,
    cons: seq<string>,
    requiredSkills: seq<string>,
    timeCommitment: string,
    scalability: string)

  /** The freelance-writing record (its long sectioned description is not transcribed). */
  const FreelanceWriting := BusinessModel(
    "freelance-writing",
    "Freelance Writing",
    "Offer writing services for blogs, websites, and marketing materials.",
    None,
    "1-2 weeks",
    "$0-$100",
    "$500-$5,000/month",
    "Beginner",
    "Service",
    ["Low startup cost", "Work from anywhere", "High demand"],
    ["Income can be inconsistent", "Requires good writing skills"],
    ["Writing", "Research", "Communication"],
    "10-40 hours/week",
    "Medium")

  /** The e-commerce brand-building record: the one "Very High" scalability model. */
  const EcommerceBrandBuilding := BusinessModel(
    "ecommerce-brand-building",
    "E-commerce Brand Building",
    "Create and sell your own physical products under a unique brand identity for long-term equity.",
    None,
    "3-6 months",
    "$2,000-$10,000",
    "$3,000-$100,000+/month",
    "Advanced",
    "E-commerce",
    ["Brand equity building", "High control", "Long-term scalability"],
    ["High upfront investment", "Complex logistics", "Slow initial growth"],
    ["Product sourcing", "Brand development", "Digital marketing", "Operations management"],
    "40-60 hours/week",
    "Very High")
}
