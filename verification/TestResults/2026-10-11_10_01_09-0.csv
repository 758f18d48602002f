TestResult.DisplayName,TestResult.Outcome,TestResult.Duration,TestResult.ResourceCount,RandomSeed
Mcu.RespondStaysInScenes (correctness),Passed,00:00:00.5199776,497718,2
PeakyBlinders.RespondStaysInScenes (correctness),Passed,00:00:00.5150738,752664,2
