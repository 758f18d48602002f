TestResult.DisplayName,TestResult.Outcome,TestResult.Duration,TestResult.ResourceCount,RandomSeed
Mcu.RespondStaysInScenes (correctness),Passed,00:00:01.1133711,1119951,0
PeakyBlinders.RespondStaysInScenes (correctness),Passed,00:00:00.8495354,975331,0
