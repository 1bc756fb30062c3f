/** The command-line demo's copy of the tumor-data generator. */
module Demo {
  import opened Common
  import App

  /** generate_tumor_data as the demo script defines it. */
  function GenerateTumorData(size: Hundredths, randint: (int, int) -> int): (d: TumorData)
    requires RandintInRange(randint)
    ensures d.size == size
    ensures d.isDangerous <==> size > 300
    ensures d.isDangerous ==> 1 <= d.lifeSpan <= 5
    ensures d.isDangerous ==> d.treatmentTimeframe == (if size > 400 then "within 1 month" else "within 3 months")
    ensures !d.isDangerous ==> 10 <= d.lifeSpan <= 30 && d.treatmentTimeframe == "within 6 months"
  {
    var isDangerous := size > 300;
    var lifeSpan := if isDangerous then randint(1, 5) else randint(10, 30);
    var treatmentTimeframe :=
      if isDangerous then (if size > 400 then "within 1 month" else "within 3 months")
      else "within 6 months";
    TumorData(size, isDangerous, lifeSpan, treatmentTimeframe)
  }

  /** Given the same draws, the demo and the application produce the same record. */
  lemma AgreesWithApp(size: Hundredths, randint: (int, int) -> int)
    requires RandintInRange(randint)
    ensures GenerateTumorData(size, randint) == App.GenerateTumorData(size, randint)
  {
  }

  /** Every dangerous case is given a shorter life span than every other case. */
  lemma DangerShortensLifeSpan(s1: Hundredths, s2: Hundredths, randint: (int, int) -> int)
    requires RandintInRange(randint)
    requires s1 > 300 >= s2
    ensures GenerateTumorData(s1, randint).lifeSpan < GenerateTumorData(s2, randint).lifeSpan
  {
  }
}
