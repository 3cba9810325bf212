/** The static table of what the service knows about each maize condition. */
module DiseaseInfo {

  datatype Disease = Disease(
    category: string,
    partScanned: string,
    symptoms: string,
    treatment: seq<string>,
    prevention: seq<string>)

  /** The categories the table uses. */
  const Categories: set<string> := {"Fungal Disease", "Healthy", "Viral Disease", "Insect Infestation"}

  const BlightEntry := Disease(
    "Fungal Disease", "Leaf", "Brown concentric spots, yellowing of older leaves",
    ["Apply a fungicide containing chlorothalonil or mancozeb", "Remove and destroy infected leaves"],
    ["Rotate crops annually", "Ensure proper spacing and ventilation"])

  const CommonRustEntry := Disease(
    "Fungal Disease", "Leaf", "Small, brown pustules on leaves",
    ["Use resistant varieties", "Apply fungicide if severe"],
    ["Avoid planting susceptible varieties", "Proper field sanitation"])

  const GrayLeafSpotEntry := Disease(
    "Fungal Disease", "Leaf", "Rectangular gray or tan lesions",
    ["Use fungicide", "Practice crop rotation"],
    ["Avoid dense planting", "Choose resistant varieties"])

  const HealthyEntry := Disease(
    "Healthy", "Leaf", "No visible signs of disease",
    ["Well Done!! Continue to take good care of your crop just like this"],
    ["Prevention is better than cure"])

  const MlnEntry := Disease(
    "Viral Disease", "Leaf", "Mottling, necrosis on leaves, stunted growth",
    ["No cure, remove infected plants"],
    ["Use certified seeds", "Control insect vectors"])

  const FawEntry := Disease(
    "Insect Infestation", "Leaf", "Leaf holes, frass, stunted growth",
    ["Apply appropriate insecticide", "Use pheromone traps"],
    ["Timely sowing", "Monitor fields regularly"])

  const MaizeStreakEntry := Disease(
    "Viral Disease", "Leaf", "Yellow streaks along veins",
    ["No specific treatment"],
    ["Plant resistant varieties", "Control vector population"])

  /** `DISEASE_DATA`, keyed by the display name. */
  const DiseaseData: map<string, Disease> := map[
    "Blight" := BlightEntry,
    "Common Rust" := CommonRustEntry,
    "Gray Leaf Spot" := GrayLeafSpotEntry,
    "Healthy" := HealthyEntry,
    "Mln" := MlnEntry,
    "Faw" := FawEntry,
    "Maize Streak" := MaizeStreakEntry]

  /** The seven names are distinct. */
  lemma SevenNames()
    ensures |{"Blight", "Common Rust", "Gray Leaf Spot", "Healthy", "Mln", "Faw", "Maize Streak"}| == 7
  {
    var k1 := {"Blight"};
    var k2 := k1 + {"Common Rust"};
    var k3 := k2 + {"Gray Leaf Spot"};
    var k4 := k3 + {"Healthy"};
    var k5 := k4 + {"Mln"};
    var k6 := k5 + {"Faw"};
    assert |k2| == 2 by { assert "Common Rust" !in k1; }
    assert |k3| == 3 by { assert "Gray Leaf Spot" !in k2; }
    assert |k4| == 4 by { assert "Healthy" !in k3; }
    assert |k5| == 5 by { assert "Mln" !in k4; }
    assert |k6| == 6 by { assert "Faw" !in k5; }
    assert "Maize Streak" !in k6;
    assert k6 + {"Maize Streak"} == {"Blight", "Common Rust", "Gray Leaf Spot", "Healthy", "Mln", "Faw", "Maize Streak"};
  }

  /** The table has exactly seven entries, under these names. */
  lemma TableKeys()
    ensures DiseaseData.Keys == {"Blight", "Common Rust", "Gray Leaf Spot", "Healthy", "Mln", "Faw", "Maize Streak"}
    ensures |DiseaseData| == 7
  {
    SevenNames();
    assert DiseaseData.Keys == {"Blight", "Common Rust", "Gray Leaf Spot", "Healthy", "Mln", "Faw", "Maize Streak"};
  }

  /** Every entry is about a leaf, has a known category and at least one
      treatment and one prevention step; only "Healthy" is in category "Healthy". */
  lemma EntriesWellFormed()
    ensures forall name :: name in DiseaseData ==>
      && DiseaseData[name].partScanned == "Leaf"
      && DiseaseData[name].category in Categories
      && |DiseaseData[name].treatment| > 0
      && |DiseaseData[name].prevention| > 0
      && (DiseaseData[name].category == "Healthy" <==> name == "Healthy")
  {
  }
}
